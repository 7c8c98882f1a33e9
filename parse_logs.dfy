/**
 * `ap_gnss_stats/bin/parse_logs.py`: the name of the JSON file written for one
 * parsed capture, `<AP name>_<timestamp>.<extension>`. The current time that
 * stands in for a missing GNSS time stamp is a parameter (`now`, already
 * formatted as `%Y%m%d_%H%M%S`).
 */
module ParseLogs {
  import opened Common
  import opened Text
  import opened Json

  /** The AP name made safe for a file name: ' ', '/' and '\' each become '_'. */
  function CleanName(name: string): (r: string)
    ensures |r| == |name|
    ensures forall i :: 0 <= i < |name| ==>
      r[i] == if name[i] == ' ' || name[i] == '/' || name[i] == '\\' then '_' else name[i]
    ensures ' ' !in r && '/' !in r && '\\' !in r
  {
    var once := ReplaceChar(name, ' ', "_");
    var twice := ReplaceChar(once, '/', "_");
    ReplaceSingle(name, ' ', '_');
    ReplaceSingle(once, '/', '_');
    ReplaceSingle(twice, '\\', '_');
    ReplaceChar(twice, '\\', "_")
  }

  /** The GNSS time stamp made compact: ' ' becomes '_', every ':' and '-' is dropped. */
  function CompactStamp(t: string): (r: string)
    ensures ' ' !in r && ':' !in r && '-' !in r
  {
    var once := ReplaceChar(t, ' ', "_");
    var twice := ReplaceChar(once, ':', "");
    ReplaceKeeps(once, ':', "", ' ');
    ReplaceKeeps(twice, '-', "", ' ');
    ReplaceKeeps(twice, '-', "", ':');
    ReplaceChar(twice, '-', "")
  }

  /** Reference definition of the compact stamp: one pass, character by character. */
  function StampChars(t: string): string
  {
    if |t| == 0 then ""
    else
      var c := t[0];
      (if c == ' ' then "_" else if c == ':' || c == '-' then "" else [c]) + StampChars(t[1..])
  }

  lemma {:induction false} ReplaceConcat(a: string, b: string, c: char, rep: string)
    ensures ReplaceChar(a + b, c, rep) == ReplaceChar(a, c, rep) + ReplaceChar(b, c, rep)
    decreases |a|
  {
    if |a| > 0 {
      assert (a + b)[1..] == a[1..] + b;
      ReplaceConcat(a[1..], b, c, rep);
    } else {
      assert a + b == b;
    }
  }

  /** The three chained `replace` calls do what one character-by-character pass does. */
  lemma {:induction false} CompactStampIsStampChars(t: string)
    ensures CompactStamp(t) == StampChars(t)
    decreases |t|
  {
    if |t| > 0 {
      var c := t[0];
      var head := if c == ' ' then "_" else [c];
      assert ReplaceChar(t, ' ', "_") == head + ReplaceChar(t[1..], ' ', "_");
      ReplaceConcat(head, ReplaceChar(t[1..], ' ', "_"), ':', "");
      var head2 := ReplaceChar(head, ':', "");
      ReplaceConcat(head2, ReplaceChar(ReplaceChar(t[1..], ' ', "_"), ':', ""), '-', "");
      CompactStampIsStampChars(t[1..]);
    }
  }

  /**
   * The timestamp part: the compacted `gnss_timestamp` when it is text; `now`
   * when it is missing, or when it is not text and `replace` raises inside the
   * `try`.
   */
  function TimestampPart(apData: Fields, now: string): (r: string)
  {
    match Get(apData, "gnss_timestamp")
    case Some(v) => if v.Str? then CompactStamp(v.s) else now
    case None => now
  }

  /** `generate_output_filename`: see `OutputFilenameCases`. */
  function GenerateOutputFilename(apData: Fields, extension: string, now: string): Result<string>
  {
    var name := match Get(apData, "ap_name") case None => Str("unknown_ap") case Some(v) => v;
    if name.Str? then Success(CleanName(name.s) + "_" + TimestampPart(apData, now) + "." + extension)
    else Failure("AttributeError")
  }

  lemma DefaultNameClean()
    ensures CleanName("unknown_ap") == "unknown_ap"
  {
    var n := "unknown_ap";
    assert forall i :: 0 <= i < |n| ==> n[i] != ' ' && n[i] != '/' && n[i] != '\\';
  }

  /**
   * `generate_output_filename`: `ap_name` (default `unknown_ap`) made safe,
   * `_`, the timestamp part, `.` and the extension. An `ap_name` that is not
   * text raises `AttributeError` at `replace`, which nothing catches.
   */
  lemma OutputFilenameCases(apData: Fields, extension: string, now: string)
    ensures var r := GenerateOutputFilename(apData, extension, now);
      Get(apData, "ap_name").None? ==>
      r == Success("unknown_ap" + "_" + TimestampPart(apData, now) + "." + extension)
    ensures var r := GenerateOutputFilename(apData, extension, now);
      Get(apData, "ap_name").Some? && Get(apData, "ap_name").value.Str? ==>
      r == Success(CleanName(Get(apData, "ap_name").value.s) + "_" + TimestampPart(apData, now) + "." + extension)
    ensures GenerateOutputFilename(apData, extension, now).Failure? <==>
      Get(apData, "ap_name").Some? && !Get(apData, "ap_name").value.Str?
  {
    DefaultNameClean();
  }

  /**
   * The parts of a generated name: the safe name holds no space or separator,
   * a text time stamp appears compacted (' ' as '_', no ':' or '-'), and the
   * name ends in `.` and the extension.
   */
  lemma OutputFilenameParts(apData: Fields, extension: string, now: string, name: string, t: string)
    requires Get(apData, "ap_name") == Some(Str(name))
    requires Get(apData, "gnss_timestamp") == Some(Str(t))
    ensures var f := GenerateOutputFilename(apData, extension, now);
      f.Success? && f.value == CleanName(name) + "_" + StampChars(t) + "." + extension
    ensures '/' !in CleanName(name) && ' ' !in StampChars(t) && ':' !in StampChars(t) && '-' !in StampChars(t)
  {
    CompactStampIsStampChars(t);
  }

  /** Without a text time stamp, the current time is used. */
  lemma OutputFilenameClock(apData: Fields, extension: string, now: string)
    requires Get(apData, "ap_name").None?
    requires Get(apData, "gnss_timestamp").None? || !Get(apData, "gnss_timestamp").value.Str?
    ensures GenerateOutputFilename(apData, extension, now) == Success("unknown_ap" + "_" + now + "." + extension)
  {
    OutputFilenameCases(apData, extension, now);
  }
}
