/**
 * createCommandRegex: the source string of the case-insensitive pattern that matches
 * a whitelisted command, alone or followed by a space and arguments. Compiling and
 * matching the pattern belong to java.util.regex and are not part of this model.
 */
module CommandRegex {
  import opened Wrappers

  const PatternPrefix: string := "(?i)^("
  const PatternSuffix: string := ")( .*|$)"
  const Separator: char := '|'

  /** Matcher.quoteReplacement: a backslash before every '\' and '$', every other character kept. */
  function QuoteReplacement(s: string): (r: string)
    ensures |r| >= |s|
  {
    if s == [] then []
    else (if s[0] == '\\' || s[0] == '$' then ['\\', s[0]] else [s[0]]) + QuoteReplacement(s[1..])
  }

  /** The inverse of QuoteReplacement: drop the backslash in front of each escaped character. */
  function Unquote(s: string): string
  {
    if s == [] then []
    else if s[0] == '\\' && |s| > 1 then [s[1]] + Unquote(s[2..])
    else [s[0]] + Unquote(s[1..])
  }

  lemma {:induction false} UnquoteQuoteReplacement(s: string)
    ensures Unquote(QuoteReplacement(s)) == s
  {
    if s != [] {
      UnquoteQuoteReplacement(s[1..]);
      var q := QuoteReplacement(s);
      if s[0] == '\\' || s[0] == '$' {
        assert q[2..] == QuoteReplacement(s[1..]);
      } else {
        assert q[1..] == QuoteReplacement(s[1..]);
      }
    }
  }

  /** A string with no backslash and no dollar sign is returned unchanged. */
  lemma {:induction false} QuoteReplacementPlain(s: string)
    requires forall i :: 0 <= i < |s| ==> s[i] != '\\' && s[i] != '$'
    ensures QuoteReplacement(s) == s
  {
    if s != [] {
      QuoteReplacementPlain(s[1..]);
    }
  }

  /** Quoting adds exactly one character per backslash or dollar sign. */
  lemma {:induction false} QuoteReplacementLength(s: string)
    ensures |QuoteReplacement(s)| == |s| + Occurrences(s, '\\') + Occurrences(s, '$')
  {
    if s != [] {
      QuoteReplacementLength(s[1..]);
      OccurrencesCons(s, '\\');
      OccurrencesCons(s, '$');
    }
  }

  /** Quoting neither adds nor removes any character other than the backslash. */
  lemma {:induction false} QuoteReplacementKeeps(s: string, c: char)
    requires c != '\\'
    ensures c in QuoteReplacement(s) <==> c in s
  {
    if s != [] {
      QuoteReplacementKeeps(s[1..], c);
      assert s == [s[0]] + s[1..];
    }
  }

  /** The number of times `c` occurs in `s`. */
  function Occurrences(s: string, c: char): nat
  {
    if s == [] then 0 else (if s[|s| - 1] == c then 1 else 0) + Occurrences(s[..|s| - 1], c)
  }

  lemma {:induction false} OccurrencesAppend(a: string, b: string, c: char)
    ensures Occurrences(a + b, c) == Occurrences(a, c) + Occurrences(b, c)
  {
    if b != [] {
      assert (a + b)[..|a + b| - 1] == a + b[..|b| - 1];
      OccurrencesAppend(a, b[..|b| - 1], c);
    } else {
      assert a + b == a;
    }
  }

  lemma OccurrencesCons(s: string, c: char)
    requires s != []
    ensures Occurrences(s, c) == (if s[0] == c then 1 else 0) + Occurrences(s[1..], c)
  {
    assert s == [s[0]] + s[1..];
    OccurrencesAppend([s[0]], s[1..], c);
  }

  lemma {:induction false} OccurrencesAbsent(s: string, c: char)
    requires c !in s
    ensures Occurrences(s, c) == 0
  {
    if s != [] {
      OccurrencesAbsent(s[..|s| - 1], c);
    }
  }

  /** The quoted commands, in list order, joined by the separator. */
  function Alternation(commands: seq<string>): string
    requires |commands| > 0
  {
    if |commands| == 1 then QuoteReplacement(commands[0])
    else Alternation(commands[..|commands| - 1]) + [Separator] + QuoteReplacement(commands[|commands| - 1])
  }

  /** The pattern source createCommandRegex compiles; no pattern for an empty list. */
  function CommandRegexSource(commands: seq<string>): (r: Option<string>)
    ensures r.None? <==> |commands| == 0
    ensures r.Some? ==>
              && PatternPrefix <= r.value
              && |r.value| >= |PatternPrefix| + |PatternSuffix|
              && r.value[|r.value| - |PatternSuffix|..] == PatternSuffix
  {
    if |commands| == 0 then None
    else
      var source := PatternPrefix + Alternation(commands) + PatternSuffix;
      assert source[|source| - |PatternSuffix|..] == PatternSuffix;
      Some(source)
  }

  /** The StringBuilder loop of createCommandRegex. */
  method CreateCommandRegex(commands: seq<string>) returns (pattern: Option<string>)
    ensures pattern.None? <==> |commands| == 0
    ensures pattern == CommandRegexSource(commands)
  {
    if |commands| == 0 {
      return None;
    }
    var b := PatternPrefix + QuoteReplacement(commands[0]);
    for i := 1 to |commands|
      invariant b == PatternPrefix + Alternation(commands[..i])
    {
      assert commands[..i + 1][..i] == commands[..i];
      b := b + [Separator] + QuoteReplacement(commands[i]);
    }
    assert commands[..|commands|] == commands;
    pattern := Some(b + PatternSuffix);
  }

  /** When no command contains the separator, the alternation holds exactly one separator fewer than there are commands. */
  lemma {:induction false} AlternationSeparators(commands: seq<string>)
    requires |commands| > 0
    requires forall i :: 0 <= i < |commands| ==> Separator !in commands[i]
    ensures Occurrences(Alternation(commands), Separator) == |commands| - 1
  {
    var last := commands[|commands| - 1];
    QuoteReplacementKeeps(last, Separator);
    OccurrencesAbsent(QuoteReplacement(last), Separator);
    if |commands| > 1 {
      var init := commands[..|commands| - 1];
      AlternationSeparators(init);
      OccurrencesAppend(Alternation(init) + [Separator], QuoteReplacement(last), Separator);
      OccurrencesAppend(Alternation(init), [Separator], Separator);
    }
  }

  /** The index of the last occurrence of `c` in `s`, or -1. */
  function LastIndexOf(s: string, c: char): (r: int)
    ensures -1 <= r < |s|
    ensures r == -1 <==> c !in s
    ensures r >= 0 ==> s[r] == c && forall j :: r < j < |s| ==> s[j] != c
  {
    if s == [] then -1
    else if s[|s| - 1] == c then |s| - 1
    else LastIndexOf(s[..|s| - 1], c)
  }

  /** The pieces of `s` between occurrences of `sep`, in order. */
  function Split(s: string, sep: char): (parts: seq<string>)
    ensures |parts| > 0
    decreases |s|
  {
    var i := LastIndexOf(s, sep);
    if i < 0 then [s] else Split(s[..i], sep) + [s[i + 1..]]
  }

  lemma SplitAppend(a: string, sep: char, b: string)
    requires sep !in b
    ensures Split(a + [sep] + b, sep) == Split(a, sep) + [b]
  {
    var s := a + [sep] + b;
    var i := LastIndexOf(s, sep);
    assert s[|a|] == sep;
    forall j | |a| < j < |s|
      ensures s[j] != sep
    {
      assert s[j] == b[j - |a| - 1];
    }
    assert i == |a|;
    assert s[..i] == a;
    assert s[i + 1..] == b;
  }

  function QuoteAll(commands: seq<string>): (quoted: seq<string>)
    ensures |quoted| == |commands|
    ensures forall i :: 0 <= i < |commands| ==> quoted[i] == QuoteReplacement(commands[i])
  {
    seq(|commands|, i requires 0 <= i < |commands| => QuoteReplacement(commands[i]))
  }

  function UnquoteAll(parts: seq<string>): (commands: seq<string>)
    ensures |commands| == |parts|
    ensures forall i :: 0 <= i < |parts| ==> commands[i] == Unquote(parts[i])
  {
    seq(|parts|, i requires 0 <= i < |parts| => Unquote(parts[i]))
  }

  /** When no command contains the separator, splitting the alternation gives back the quoted commands. */
  lemma {:induction false} SplitAlternation(commands: seq<string>)
    requires |commands| > 0
    requires forall i :: 0 <= i < |commands| ==> Separator !in commands[i]
    ensures Split(Alternation(commands), Separator) == QuoteAll(commands)
  {
    var last := commands[|commands| - 1];
    QuoteReplacementKeeps(last, Separator);
    if |commands| == 1 {
      assert LastIndexOf(QuoteReplacement(last), Separator) == -1;
    } else {
      var init := commands[..|commands| - 1];
      SplitAlternation(init);
      assert Alternation(commands) == Alternation(init) + [Separator] + QuoteReplacement(last);
      SplitAppend(Alternation(init), Separator, QuoteReplacement(last));
      QuoteAllLast(commands);
    }
  }

  /** Quoting a list quotes its last command after the others. */
  lemma QuoteAllLast(commands: seq<string>)
    requires |commands| > 0
    ensures QuoteAll(commands) == QuoteAll(commands[..|commands| - 1]) + [QuoteReplacement(commands[|commands| - 1])]
  {
    var init := commands[..|commands| - 1];
    assert forall i :: 0 <= i < |init| ==> QuoteAll(commands)[i] == QuoteAll(init)[i];
  }

  /** Reads the command list back out of a pattern source built by CommandRegexSource. */
  function DecodeCommandRegex(pattern: string): Option<seq<string>>
  {
    if |pattern| >= |PatternPrefix| + |PatternSuffix|
       && pattern[..|PatternPrefix|] == PatternPrefix
       && pattern[|pattern| - |PatternSuffix|..] == PatternSuffix
    then Some(UnquoteAll(Split(pattern[|PatternPrefix|..|pattern| - |PatternSuffix|], Separator)))
    else None
  }

  /**
   * The pattern source determines the command list, in order: decoding it gives the
   * commands back, as long as no command contains the separator.
   */
  lemma CommandRegexRoundTrip(commands: seq<string>)
    requires |commands| > 0
    requires forall i :: 0 <= i < |commands| ==> Separator !in commands[i]
    ensures CommandRegexSource(commands).Some?
    ensures DecodeCommandRegex(CommandRegexSource(commands).value) == Some(commands)
  {
    var alternation := Alternation(commands);
    var pattern := PatternPrefix + alternation + PatternSuffix;
    assert pattern[..|PatternPrefix|] == PatternPrefix;
    assert pattern[|pattern| - |PatternSuffix|..] == PatternSuffix;
    assert pattern[|PatternPrefix|..|pattern| - |PatternSuffix|] == alternation;
    SplitAlternation(commands);
    forall i | 0 <= i < |commands|
      ensures Unquote(QuoteAll(commands)[i]) == commands[i]
    {
      UnquoteQuoteReplacement(commands[i]);
    }
    assert UnquoteAll(QuoteAll(commands)) == commands;
  }

  /**
   * quoteReplacement leaves the separator alone, so a command that contains it reads
   * as two commands: the single command "a|b" gives the same pattern as "a" and "b".
   */
  lemma SeparatorInCommandIsAmbiguous()
    ensures CommandRegexSource(["a|b"]) == CommandRegexSource(["a", "b"])
  {
    QuoteReplacementPlain("a|b");
    QuoteReplacementPlain("a");
    QuoteReplacementPlain("b");
    assert ["a", "b"][..1] == ["a"];
    assert Alternation(["a", "b"]) == Alternation(["a"]) + [Separator] + QuoteReplacement("b");
    assert Alternation(["a", "b"]) == "a|b" == Alternation(["a|b"]);
  }
}
