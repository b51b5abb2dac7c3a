/**
 * The handlers every bot's dispatcher gets (bot_setup.py): a fixed answer to
 * the start command, and a greeting for any other message that contains
 * "hi" once lower-cased and stripped.
 */
module BotSetup {
  import opened Wrappers
  import opened Text

  /**
   * An update as the dispatcher routes it: the start command (which goes to
   * the first handler), or any other message with its text, `None` when the
   * message carries no text.
   */
  datatype Incoming = StartCommand | Message(text: Option<string>)

  const StartReply := "Hello! This is start message."
  const KeywordReply := "Hello there!"

  /** The keyword handler's test: "hi" occurs in the lower-cased text with its surrounding whitespace removed. */
  predicate SaysHi(text: string) {
    Occurs("hi", Strip(Lower(text)))
  }

  /** An `h` followed by an `i`, either letter in either case. */
  predicate HasHiIgnoringCase(t: string) {
    exists i :: 0 <= i < |t| - 1 && LowerChar(t[i]) == 'h' && LowerChar(t[i + 1]) == 'i'
  }

  /** "hi" occurs in a string exactly where an `h` is followed by an `i`. */
  lemma OccursHi(s: string)
    ensures Occurs("hi", s) <==> exists i :: 0 <= i < |s| - 1 && s[i] == 'h' && s[i + 1] == 'i'
  {
    if Occurs("hi", s) {
      var i :| 0 <= i <= |s| && "hi" <= s[i..];
      assert s[i..][0] == s[i] && s[i..][1] == s[i + 1];
    }
    if exists i :: 0 <= i < |s| - 1 && s[i] == 'h' && s[i + 1] == 'i' {
      var i :| 0 <= i < |s| - 1 && s[i] == 'h' && s[i + 1] == 'i';
      assert "hi" <= s[i..];
    }
  }

  /** Lower-casing then stripping finds "hi" exactly where the raw text has it in some case. */
  lemma SaysHiIgnoresCase(t: string)
    ensures SaysHi(t) <==> HasHiIgnoringCase(t)
  {
    var l := Lower(t);
    OccursStrip("hi", l);
    OccursHi(l);
  }

  /**
   * What the bot answers: the start command always gets the fixed start text
   * (no per-bot configuration is consulted); any other message gets the
   * greeting exactly when it contains "hi" in any letter case; a message
   * without text gets nothing (its handler raises and the error is swallowed).
   */
  function Reply(update: Incoming): (reply: Option<string>)
    ensures update.StartCommand? ==> reply == Some(StartReply)
    ensures update.Message? && update.text.None? ==> reply == None
    ensures update.Message? && update.text.Some? ==>
      reply == if HasHiIgnoringCase(update.text.value) then Some(KeywordReply) else None
  {
    match update
    case StartCommand => Some(StartReply)
    case Message(text) =>
      if text.None? then None
      else
        SaysHiIgnoresCase(text.value);
        if SaysHi(text.value) then Some(KeywordReply) else None
  }

  /** Matching ignores case: "HI all" is greeted. */
  lemma UpperCaseIsGreeted()
    ensures Reply(Message(Some("HI all"))) == Some(KeywordReply)
  {
    var t := "HI all";
    assert LowerChar(t[0]) == 'h' && LowerChar(t[1]) == 'i';
    assert HasHiIgnoringCase(t);
  }

  /** Matching is by substring, not whole word: "this" is greeted. */
  lemma SubstringIsGreeted()
    ensures Reply(Message(Some("this"))) == Some(KeywordReply)
  {
    var t := "this";
    assert LowerChar(t[1]) == 'h' && LowerChar(t[2]) == 'i';
    assert HasHiIgnoringCase(t);
  }

  /** "Hello" has no "hi" in any case and is not greeted. */
  lemma HelloIsNotGreeted()
    ensures Reply(Message(Some("Hello"))) == None
  {
    var t := "Hello";
    assert LowerChar(t[0]) == 'h' && LowerChar(t[1]) == 'e' && LowerChar(t[2]) == 'l' && LowerChar(t[3]) == 'l';
    assert !HasHiIgnoringCase(t);
  }
}
