/**
 * FlagIndicator.jsx: the icon and the caption shown for a track flag or safety-car type.
 * Three safety-car types have fixed captions; every other type is capitalised and followed
 * by " Flag". Upper-casing is modelled for the ASCII letters.
 */
module FlagIndicator {

  /** The icon components of `renderIcon`. */
  datatype Icon = ExclamationTriangle | Stop | Flag | Car | CarSide | CarCrash

  /** `renderIcon`: one icon per listed type; "green" and any other type share the flag. */
  function RenderIcon(flagType: string): (icon: Icon)
    ensures icon == Flag <==>
              flagType !in {"yellow", "red", "safety-car", "virtual-safety-car", "virtual-safety-car-ending"}
    ensures icon == ExclamationTriangle <==> flagType == "yellow"
    ensures icon == Stop <==> flagType == "red"
    ensures icon == Car <==> flagType == "safety-car"
    ensures icon == CarSide <==> flagType == "virtual-safety-car"
    ensures icon == CarCrash <==> flagType == "virtual-safety-car-ending"
  {
    match flagType
    case "yellow" => ExclamationTriangle
    case "red" => Stop
    case "green" => Flag
    case "safety-car" => Car
    case "virtual-safety-car" => CarSide
    case "virtual-safety-car-ending" => CarCrash
    case _ => Flag
  }

  /** `String.prototype.toUpperCase` on one character: a-z become A-Z, the rest stay. */
  function UpperChar(c: char): (u: char)
    ensures 'a' <= c <= 'z' ==> 'A' <= u <= 'Z' && (u as int) - ('A' as int) == (c as int) - ('a' as int)
    ensures !('a' <= c <= 'z') ==> u == c
  {
    if 'a' <= c <= 'z' then ((c as int) - ('a' as int) + ('A' as int)) as char else c
  }

  /** `type.charAt(0).toUpperCase() + type.slice(1)`; `charAt(0)` of "" is "". */
  function Capitalize(s: string): string
  {
    if s == [] then [] else [UpperChar(s[0])] + s[1..]
  }

  /** `renderText` */
  function RenderText(flagType: string): string
  {
    match flagType
    case "safety-car" => "Safety Car"
    case "virtual-safety-car" => "Virtual Safety Car"
    case "virtual-safety-car-ending" => "Virtual Safety Car Ending"
    case _ => Capitalize(flagType) + " Flag"
  }

  predicate SafetyCarType(flagType: string)
  {
    flagType in {"safety-car", "virtual-safety-car", "virtual-safety-car-ending"}
  }

  /**
   * Every other type reads as itself, first letter upper-cased, followed by " Flag": the
   * caption is five characters longer than the type, ends in " Flag", and keeps the rest of
   * the type as it is.
   */
  lemma DefaultCaption(flagType: string)
    requires !SafetyCarType(flagType)
    ensures var t := RenderText(flagType);
            |t| == |flagType| + 5
            && t[|flagType|..] == " Flag"
            && (|flagType| > 0 ==> t[0] == UpperChar(flagType[0]) && t[1..|flagType|] == flagType[1..])
  {
  }

  /** The captions of the listed flag colours and the safety-car types. */
  lemma Captions()
    ensures RenderText("yellow") == "Yellow Flag"
    ensures RenderText("red") == "Red Flag"
    ensures RenderText("green") == "Green Flag"
    ensures RenderText("safety-car") == "Safety Car"
    ensures RenderText("virtual-safety-car") == "Virtual Safety Car"
    ensures RenderText("virtual-safety-car-ending") == "Virtual Safety Car Ending"
  {
    ColourCaption("yellow", 'Y', "Yellow Flag");
    ColourCaption("red", 'R', "Red Flag");
    ColourCaption("green", 'G', "Green Flag");
  }

  /** The caption of a lower-case colour name whose first letter upper-cases to `first`. */
  lemma ColourCaption(colour: string, first: char, caption: string)
    requires !SafetyCarType(colour) && |colour| > 0 && UpperChar(colour[0]) == first
    requires caption == [first] + colour[1..] + " Flag"
    ensures RenderText(colour) == caption
  {
  }

  /** A safety-car caption never ends in " Flag", so the two kinds of caption never meet. */
  lemma SafetyCarCaptionsDiffer(a: string, b: string)
    requires SafetyCarType(a) && !SafetyCarType(b)
    ensures RenderText(a) != RenderText(b)
  {
    DefaultCaption(b);
    var t := RenderText(b);
    assert t[|t| - 1] == 'g';
  }
}
