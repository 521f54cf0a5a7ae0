/**
  Helpers shared by the runner (src/utils.ts): the result record of an editor
  command, its three factories, the classifier `checkCommandFailure`, and the
  shape of the timestamps written when an exercise is completed.
*/
module Utils {
  import opened Text

  /** What an editor command hands back: any JavaScript value, of which only strings are inspected. */
  datatype CommandOutput = NonString | Str(text: string)

  /** `CmdResult`: did the command fail, did it report information, and its message. */
  datatype CmdResult = CmdResult(failed: bool, info: bool, msg: string)

  /** `CmdResult.error`. */
  function Error(msg: string): CmdResult {
    CmdResult(true, false, msg)
  }

  /** `CmdResult.info`. */
  function Info(msg: string): CmdResult {
    CmdResult(false, true, msg)
  }

  /** `CmdResult.noMessage`: a normal completion whose output is typically JSON. */
  function NoMessage(): CmdResult {
    CmdResult(false, false, "(no message)")
  }

  /** A result never claims both failure and information. */
  predicate Exclusive(r: CmdResult) {
    !(r.failed && r.info)
  }

  /** The three factories build only results with exclusive flags. */
  lemma FactoriesAreExclusive(msg: string)
    ensures Exclusive(Error(msg)) && Exclusive(Info(msg)) && Exclusive(NoMessage())
  {
  }

  /** The text after the first ':' of `s`, or `fallback` when `s` has none (the `i > 0` test of the source). */
  function AfterFirstColon(s: string, fallback: string): string {
    var i := IndexOf(s, ':');
    if i > 0 then s[i + 1..] else fallback
  }

  /**
    `checkCommandFailure`: a string starting with "Failed" is an error, one
    starting with "Info" is information, anything else (including a value
    that is not a string) completed without a message.
  */
  function CheckCommandFailure(result: CommandOutput): (r: CmdResult)
    ensures Exclusive(r)
    ensures r.failed <==> result.Str? && StartsWith(result.text, "Failed")
    ensures r.info <==> result.Str? && !StartsWith(result.text, "Failed") && StartsWith(result.text, "Info")
    ensures !r.failed && !r.info ==> r == NoMessage()
  {
    if result.Str? && StartsWith(result.text, "Failed") then
      Error(AfterFirstColon(result.text, "(no error message provided)"))
    else if result.Str? && StartsWith(result.text, "Info") then
      Info(AfterFirstColon(result.text, "(no info message provided)"))
    else
      NoMessage()
  }

  /** With a known prefix in front, the source's `i > 0` test is exactly "contains ':'". */
  lemma ColonTestIsContainment(s: string, prefix: string)
    requires prefix == "Failed" || prefix == "Info"
    requires StartsWith(s, prefix)
    ensures IndexOf(s, ':') > 0 <==> ':' in s
  {
    assert s[0] == prefix[0];
  }

  /** True when `msg` is what follows the first ':' of `s`. */
  predicate FollowsFirstColon(s: string, msg: string) {
    |msg| < |s| && s[|s| - |msg|..] == msg
    && s[|s| - |msg| - 1] == ':' && ':' !in s[..|s| - |msg| - 1]
  }

  /**
    A "Failed" or "Info" result with a ':' carries, untrimmed, exactly the
    text after the first ':' — a proper suffix of the command output; without a
    ':' it carries the fixed placeholder.
  */
  lemma {:induction false} MessageFollowsFirstColon(s: string)
    requires StartsWith(s, "Failed") || StartsWith(s, "Info")
    ensures var r := CheckCommandFailure(Str(s));
            if ':' in s then FollowsFirstColon(s, r.msg)
            else r.msg == (if r.failed then "(no error message provided)" else "(no info message provided)")
  {
    ColonTestIsContainment(s, if StartsWith(s, "Failed") then "Failed" else "Info");
    if ':' in s {
      var i := IndexOf(s, ':');
      var msg := s[i + 1..];
      assert |s| - |msg| - 1 == i;
      assert CheckCommandFailure(Str(s)).msg == msg;
    }
  }

  /**
    `getTimestamp`: the locale date and time of the clock, joined by " : ".
    The formatting of the clock reading is not modelled; the date and time
    texts are its two ends, and the timestamp is never empty.
  */
  function Timestamp(date: string, time: string): (r: string)
    ensures |r| == |date| + 3 + |time| && r != ""
    ensures r[|date|..|date| + 3] == " : "
    ensures r[..|date|] == date && r[|date| + 3..] == time
  {
    date + " : " + time
  }
}
