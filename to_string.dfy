/** The vendor enumeration printers (util/to_string.hpp). Both statuses are
    64-bit integers in the vendor API, with the named values 0 to 3 for an
    eye's gaze status and 0 to 2 for the overall gaze status; any other value
    prints as "Unknown status: " and its decimal text. */
module VarjoToString {
  import opened Text

  const UnknownPrefix: string := "Unknown status: "

  /** `to_string_varjo_types_GazeEyeStatus`. */
  function GazeEyeStatusText(status: int): (s: string)
    ensures 0 <= status <= 3 ==> |s| < |UnknownPrefix|
    ensures !(0 <= status <= 3) ==> s == UnknownPrefix + IntText(status)
  {
    if status == 0 then "Invalid"
    else if status == 1 then "Visible"
    else if status == 2 then "Compensated"
    else if status == 3 then "Tracked"
    else UnknownPrefix + IntText(status)
  }

  /** `to_string_varjo_types_GazeStatus`. */
  function GazeStatusText(status: int): (s: string)
    ensures 0 <= status <= 2 ==> |s| < |UnknownPrefix|
    ensures !(0 <= status <= 2) ==> s == UnknownPrefix + IntText(status)
  {
    if status == 0 then "Invalid"
    else if status == 1 then "Adjust"
    else if status == 2 then "Valid"
    else UnknownPrefix + IntText(status)
  }

  /** The unknown-value texts tell their values apart. */
  lemma UnknownTextInjective(a: int, b: int)
    requires UnknownPrefix + IntText(a) == UnknownPrefix + IntText(b)
    ensures a == b
  {
    assert IntText(a) == (UnknownPrefix + IntText(a))[|UnknownPrefix|..];
    assert IntText(b) == (UnknownPrefix + IntText(b))[|UnknownPrefix|..];
    IntTextInjective(a, b);
  }

  /** Different eye gaze statuses print differently, so the text identifies
      the status. */
  lemma GazeEyeStatusTextInjective(a: int, b: int)
    requires GazeEyeStatusText(a) == GazeEyeStatusText(b)
    ensures a == b
  {
    if !(0 <= a <= 3) && !(0 <= b <= 3) {
      UnknownTextInjective(a, b);
    }
  }

  /** Different gaze statuses print differently. */
  lemma GazeStatusTextInjective(a: int, b: int)
    requires GazeStatusText(a) == GazeStatusText(b)
    ensures a == b
  {
    if !(0 <= a <= 2) && !(0 <= b <= 2) {
      UnknownTextInjective(a, b);
    }
  }
}
