/**
 * SLF4J logging reduced to what the handlers observe: an event carries a level
 * and the text that results from substituting the arguments into the "{}"
 * anchors of the message pattern, left to right.
 */
module Logging {

  datatype Level = Warn | Error

  datatype LogEvent = LogEvent(level: Level, text: string)

  /**
   * MessageFormatter's substitution: each "{}" takes the next argument; once
   * the arguments run out the rest of the pattern is copied as it stands, and
   * surplus arguments are dropped.
   */
  function Format(pattern: string, args: seq<string>): (text: string)
    ensures |args| == 0 ==> text == pattern
    decreases |pattern|
  {
    if |pattern| < 2 then pattern
    else if pattern[0] == '{' && pattern[1] == '}' && |args| > 0 then
      args[0] + Format(pattern[2..], args[1..])
    else
      [pattern[0]] + Format(pattern[1..], args)
  }

  // The next two lemmas are single unfoldings of Format; they are stated apart
  // so that FormatFirstAnchor's proof context stays small.

  /** A pattern that does not open with an anchor copies its first character. */
  lemma CopyFirstCharacter(pattern: string, args: seq<string>)
    requires |pattern| >= 2 && !(pattern[0] == '{' && pattern[1] == '}')
    ensures Format(pattern, args) == [pattern[0]] + Format(pattern[1..], args)
  {
  }

  /** A pattern that opens with an anchor spends the first argument on it. */
  lemma FillOpeningAnchor(arg: string, rest: string, args: seq<string>)
    ensures Format("{}" + rest, [arg] + args) == arg + Format(rest, args)
  {
  }

  /** Plain text ahead of the first anchor is copied one character at a time. */
  lemma CopyPrefixCharacter(prefix: string, rest: string, args: seq<string>)
    requires |prefix| > 0 && '}' !in prefix
    ensures '}' !in prefix[1..]
    ensures Format(prefix + "{}" + rest, args) == [prefix[0]] + Format(prefix[1..] + "{}" + rest, args)
  {
    var pattern := prefix + "{}" + rest;
    assert pattern[1] != '}' by {
      if |prefix| > 1 {
        assert pattern[1] == prefix[1];
      }
    }
    CopyFirstCharacter(pattern, args);
    assert pattern[1..] == prefix[1..] + "{}" + rest;
    assert forall c :: c in prefix[1..] ==> c in prefix;
  }

  /**
   * The first anchor of a pattern takes the first argument, whatever text
   * without a closing brace precedes it.
   */
  lemma {:induction false} FormatFirstAnchor(prefix: string, arg: string, rest: string, args: seq<string>)
    // Stronger than MessageFormatter needs (no "{}" in the prefix); chosen because it is cheap to verify.
    requires '}' !in prefix
    ensures Format(prefix + "{}" + rest, [arg] + args) == prefix + arg + Format(rest, args)
    decreases |prefix|
  {
    if |prefix| == 0 {
      assert prefix + "{}" + rest == "{}" + rest;
      FillOpeningAnchor(arg, rest, args);
    } else {
      CopyPrefixCharacter(prefix, rest, [arg] + args);
      FormatFirstAnchor(prefix[1..], arg, rest, args);
      var filled := Format(rest, args);
      assert prefix + arg + filled == [prefix[0]] + (prefix[1..] + arg + filled);
    }
  }

  /** A pattern with a single trailing anchor reads as its prefix followed by the argument. */
  lemma FormatOneArgument(prefix: string, arg: string)
    requires '}' !in prefix
    ensures Format(prefix + "{}", [arg]) == prefix + arg
  {
    FormatFirstAnchor(prefix, arg, "", []);
    assert prefix + "{}" + "" == prefix + "{}";
    assert [arg] + [] == [arg];
  }

  /** Two anchors separated by plain text take the two arguments in order. */
  lemma FormatTwoArguments(prefix: string, first: string, separator: string, second: string)
    requires '}' !in prefix && '}' !in separator
    ensures Format(prefix + "{}" + separator + "{}", [first, second]) == prefix + first + separator + second
  {
    FormatOneArgument(separator, second);
    assert prefix + "{}" + separator + "{}" == prefix + "{}" + (separator + "{}");
    assert [first, second] == [first] + [second];
    FormatFirstAnchor(prefix, first, separator + "{}", [second]);
  }
}
