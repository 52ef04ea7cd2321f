/**
 * The floating priority panel: the three-band priority classifier, its
 * legend, the slider's range, and the button that expands the panel.
 */
module PrioritySlider {
  import opened LinkTypes
  import LinkCard
  import AddLinkDialog

  /** The icon shown beside the priority level. */
  datatype Icon = Star | Target | Zap

  /** A priority level as the panel shows it. */
  datatype Level = Level(name: string, color: string, icon: Icon)

  /** The level of a global priority: High with a star from 80, Medium with a target from 40, Low with a bolt below. */
  function GetPriorityLevel(value: int): (level: Level)
    ensures level.icon == Star <==> value >= 80
    ensures level.icon == Target <==> 40 <= value < 80
    ensures level.icon == Zap <==> value < 40
  {
    if value >= 80 then Level("High", "priority-high", Star)
    else if value >= 40 then Level("Medium", "priority-medium", Target)
    else Level("Low", "priority-low", Zap)
  }

  /** One column of the legend under the slider: a level's name, colour and the percentages it covers. */
  datatype LegendEntry = LegendEntry(name: string, color: string, low: int, high: int)

  /** The legend as the panel draws it. */
  const Legend: seq<LegendEntry> := [
    LegendEntry("Low", "priority-low", 0, 39),
    LegendEntry("Medium", "priority-medium", 40, 79),
    LegendEntry("High", "priority-high", 80, 100)
  ]

  /**
   * For every value the slider can take, the level the panel shows is the
   * legend column whose range holds the value, and no other.
   */
  lemma LegendAgreesWithLevels(value: int)
    requires 0 <= value <= 100
    ensures forall i :: 0 <= i < |Legend| ==>
      (Legend[i].low <= value <= Legend[i].high <==>
        GetPriorityLevel(value).name == Legend[i].name && GetPriorityLevel(value).color == Legend[i].color)
  {
    var level := GetPriorityLevel(value);
    forall i | 0 <= i < |Legend|
      ensures Legend[i].low <= value <= Legend[i].high <==> level.name == Legend[i].name && level.color == Legend[i].color
    {
      assert |Legend[0].name| == 3 && |Legend[1].name| == 6 && |Legend[2].name| == 4;
    }
  }

  /**
   * The panel, the card's priority dot and the dialog's readout use the same
   * thresholds: the same value gets the same colour class in all three, and
   * the same name in the panel and the dialog.
   */
  lemma ClassifiersAgree(value: int)
    ensures GetPriorityLevel(value).color == LinkCard.ColorClass(LinkCard.GetPriorityColor(value))
    ensures GetPriorityLevel(value).name == AddLinkDialog.GetPriorityLevel(value).name
    ensures AddLinkDialog.GetPriorityLevel(value).color == "bg-" + GetPriorityLevel(value).color
  {
    if value >= 80 {
      assert "bg-" + "priority-high" == "bg-priority-high";
    } else if value >= 40 {
      assert "bg-" + "priority-medium" == "bg-priority-medium";
    } else {
      assert "bg-" + "priority-low" == "bg-priority-low";
    }
  }

  /** The slider's range and step. */
  const SliderMin: int := 0
  const SliderMax: int := 100
  const SliderStep: int := 5

  /** A value the slider can produce: within its range and on a step. */
  predicate OnSlider(value: int)
  {
    SliderMin <= value <= SliderMax && (value - SliderMin) % SliderStep == 0
  }

  /** The slider's positions from left to right. */
  const SliderPositions: seq<int> := seq(21, i => SliderMin + i * SliderStep)

  /** The slider has 21 positions, 0, 5, ..., 100, and they are exactly the values it can produce. */
  lemma SliderPositionsAreValues(value: int)
    ensures value in SliderPositions <==> OnSlider(value)
  {
    if value in SliderPositions {
      var i :| 0 <= i < 21 && SliderPositions[i] == value;
      assert value == i * 5;
    }
    if OnSlider(value) {
      var i := value / SliderStep;
      assert SliderPositions[i] == value;
    }
  }

  /** The panel's one piece of its own state: whether it is expanded. */
  class Panel {
    var isExpanded: bool

    /** The panel starts collapsed. */
    constructor ()
      ensures !isExpanded
    {
      isExpanded := false;
    }

    /** The settings button flips the panel between collapsed and expanded. */
    method ToggleExpanded()
      modifies this
      ensures isExpanded == !old(isExpanded)
    {
      isExpanded := !isExpanded;
    }
  }

  /** Pressing the settings button twice leaves the panel as it was. */
  method PressTwice(panel: Panel)
    modifies panel
    ensures panel.isExpanded == old(panel.isExpanded)
  {
    panel.ToggleExpanded();
    panel.ToggleExpanded();
  }
}
