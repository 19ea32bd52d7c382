/**
 * The two yes/no gates of the capture-lookups command. Each question's
 * default is the force flag; a non-interactive run takes the default
 * without reading anything, and an interactive run reads one line per
 * question.
 */
module Confirmation {

  /**
   * The operator: whether the run is interactive, and the line typed in
   * answer to the k-th question of the run (k = 0, 1, ...), with the
   * surrounding whitespace already removed by the console.
   */
  datatype Console = Console(interactive: bool, reply: nat -> string)

  /** The answer pattern `/^(y|yes)/i`. */
  predicate IsYes(answer: string)
  {
    answer != [] && (answer[0] == 'y' || answer[0] == 'Y')
  }

  function LowerAscii(c: char): char
  {
    if 'A' <= c <= 'Z' then (c as int + 32) as char else c
  }

  /** `answer` starts with `prefix`, ignoring the case of ASCII letters (`prefix` is lower case). */
  predicate StartsWithIgnoringCase(answer: string, prefix: string)
  {
    |prefix| <= |answer| && forall i :: 0 <= i < |prefix| ==> LowerAscii(answer[i]) == prefix[i]
  }

  /** `IsYes` is the pattern's two alternatives, `y` or `yes` at the start, in either case. */
  lemma YesPattern(answer: string)
    ensures IsYes(answer) <==> StartsWithIgnoringCase(answer, "y") || StartsWithIgnoringCase(answer, "yes")
  {
    if StartsWithIgnoringCase(answer, "yes") {
      assert LowerAscii(answer[0]) == "yes"[0];
    }
    if StartsWithIgnoringCase(answer, "y") {
      assert LowerAscii(answer[0]) == "y"[0];
    }
    if IsYes(answer) {
      assert LowerAscii(answer[0]) == 'y';
      assert StartsWithIgnoringCase(answer, "y");
    }
  }

  /**
   * The k-th question's outcome when its default is `default`: the default
   * when the run is not interactive or the reply is empty, otherwise
   * whether the reply matches the answer pattern.
   */
  function Confirm(console: Console, default: bool, k: nat): bool
  {
    if !console.interactive then default
    else
      var answer := console.reply(k);
      if answer == "" then default else IsYes(answer)
  }

  /**
   * The default decides exactly when nobody answers: a non-interactive run
   * or an empty reply gives the default, and a reply that is not empty
   * gives the same answer whatever the default is.
   */
  lemma ConfirmDefault(console: Console, k: nat)
    ensures (!console.interactive || console.reply(k) == "") ==>
      Confirm(console, true, k) && !Confirm(console, false, k)
    ensures (console.interactive && console.reply(k) != "") ==>
      Confirm(console, true, k) == Confirm(console, false, k) == IsYes(console.reply(k))
  {
  }
}
