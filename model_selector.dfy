/**
 The model picker (`ModelSelector`): a constant catalogue of three
 classifiers, the lookup of the selected id in it, the colour class of a
 speed badge, and the details panel shown for a successful lookup.
 */
module ModelSelector {
  import opened Js

  /** One catalogue entry (`ModelOption`); the icon is markup and is left out. */
  datatype ModelOption = ModelOption(id: string, name: string, description: string, accuracy: string, speed: string)

  /** The three speeds the entry type admits. */
  predicate IsSpeed(speed: string) {
    speed == "fast" || speed == "medium" || speed == "slow"
  }

  /** No two entries share an id. */
  predicate DistinctIds(options: seq<ModelOption>) {
    forall i, j :: 0 <= i < j < |options| ==> options[i].id != options[j].id
  }

  /** The catalogue `modelOptions`. */
  function ModelOptions(): (options: seq<ModelOption>)
    ensures |options| == 3
    ensures options[0].id == "resnet50" && options[1].id == "vgg16" && options[2].id == "efficientnet"
    ensures DistinctIds(options)
    ensures forall k :: 0 <= k < |options| ==> IsSpeed(options[k].speed)
  {
    [ ModelOption("resnet50", "ResNet-50", "Deep residual network for image classification", "92.1%", "fast"),
      ModelOption("vgg16", "VGG-16", "Visual geometry group convolutional neural network", "90.8%", "medium"),
      ModelOption("efficientnet", "EfficientNet-B7", "Compound scaling method for neural networks", "94.3%", "slow") ]
  }

  /** `options.find(model => model.id === id)`: the first entry with that id, or nothing. */
  function Find(options: seq<ModelOption>, id: string): (found: Option<ModelOption>)
    ensures found.None? <==> forall k :: 0 <= k < |options| ==> options[k].id != id
    ensures found.Some? ==>
      exists k :: 0 <= k < |options| && options[k] == found.value && found.value.id == id &&
        forall j :: 0 <= j < k ==> options[j].id != id
  {
    if options == [] then None
    else if options[0].id == id then Some(options[0])
    else
      var rest := Find(options[1..], id);
      assert forall k :: 0 <= k < |options[1..]| ==> options[1..][k] == options[k + 1];
      rest
  }

  /**
   With distinct ids the lookup is unambiguous: looking up an entry's id gives
   that entry (it follows from `Find` returning the first match).
   */
  lemma FindUnique(options: seq<ModelOption>, k: nat)
    requires DistinctIds(options)
    requires k < |options|
    ensures Find(options, options[k].id) == Some(options[k])
  {
  }

  const GreenBadge := "bg-green-500/20 text-green-400 border-green-500/30"
  const YellowBadge := "bg-yellow-500/20 text-yellow-400 border-yellow-500/30"
  const RedBadge := "bg-red-500/20 text-red-400 border-red-500/30"
  const GrayBadge := "bg-gray-500/20 text-gray-400 border-gray-500/30"

  /** `getSpeedColor`: defined for every string; gray for anything but the three speeds. */
  function SpeedColor(speed: string): (colour: string)
    ensures speed == "fast" ==> colour == GreenBadge
    ensures speed == "medium" ==> colour == YellowBadge
    ensures speed == "slow" ==> colour == RedBadge
    ensures colour == GrayBadge <==> !IsSpeed(speed)
  {
    match speed
    case "fast" => GreenBadge
    case "medium" => YellowBadge
    case "slow" => RedBadge
    case _ => GrayBadge
  }

  /** No catalogue entry gets the gray default badge. */
  lemma CatalogueNeverGray(k: nat)
    requires k < |ModelOptions()|
    ensures SpeedColor(ModelOptions()[k].speed) != GrayBadge
  {
  }

  /** What the details panel shows of the selected entry. */
  datatype Details = Details(name: string, speed: string, badgeClass: string, description: string, accuracy: string)

  /** The details panel: rendered only when the selected id is in the catalogue, and then it shows that entry. */
  function DetailsPanel(selectedModel: string): (panel: Option<Details>)
    ensures panel.Some? <==> selectedModel in {"resnet50", "vgg16", "efficientnet"}
    ensures panel.Some? ==>
      exists k :: 0 <= k < |ModelOptions()| && ModelOptions()[k].id == selectedModel &&
        var m := ModelOptions()[k];
        panel.value == Details(m.name, m.speed, SpeedColor(m.speed), m.description, m.accuracy)
    ensures panel.Some? ==> panel.value.badgeClass != GrayBadge
  {
    match Find(ModelOptions(), selectedModel)
    case None => None
    case Some(m) =>
      CatalogueNeverGray(if m == ModelOptions()[0] then 0 else if m == ModelOptions()[1] then 1 else 2);
      Some(Details(m.name, m.speed, SpeedColor(m.speed), m.description, m.accuracy))
  }
}
