/**
 * seal/utils/str_utils.py: `camel_case` and `snake_case`, the conversions between table and
 * class names. Case mapping is ASCII case mapping.
 */
module StrUtils {
  import opened Text

  predicate IsUpper(c: char) { 'A' <= c <= 'Z' }

  predicate IsLower(c: char) { 'a' <= c <= 'z' }

  function ToUpper(c: char): (r: char)
    ensures IsLower(c) ==> IsUpper(r)
    ensures !IsLower(c) ==> r == c
  {
    if IsLower(c) then (c as int - 32) as char else c
  }

  function ToLower(c: char): (r: char)
    ensures IsUpper(c) ==> IsLower(r)
    ensures !IsUpper(c) ==> r == c
    ensures IsLower(c) ==> ToLower(ToUpper(c)) == c
  {
    if IsUpper(c) then (c as int + 32) as char else c
  }

  /** `s.lower()` */
  function Lower(s: string): (r: string)
    ensures |r| == |s| && forall i | 0 <= i < |s| :: r[i] == ToLower(s[i])
  {
    seq(|s|, i requires 0 <= i < |s| => ToLower(s[i]))
  }

  /** `s.capitalize()`: first character upper case, the rest lower case. */
  function Capitalize(s: string): (r: string)
    ensures |r| == |s|
    ensures |s| > 0 ==> r[0] == ToUpper(s[0]) && r[1..] == Lower(s[1..])
  {
    if |s| == 0 then "" else [ToUpper(s[0])] + Lower(s[1..])
  }

  /** `s.split(sep)`: the pieces between separators, empty ones included. */
  function Split(s: string, sep: char): (r: seq<string>)
    ensures |r| > 0 && |r| == Occurrences(s, sep) + 1
    ensures forall i | 0 <= i < |r| :: sep !in r[i]
  {
    if |s| == 0 then [""]
    else if s[0] == sep then [""] + Split(s[1..], sep)
    else
      var rest := Split(s[1..], sep);
      [[s[0]] + rest[0]] + rest[1..]
  }

  /** `[p.capitalize() for p in parts]` */
  function Capitalized(parts: seq<string>): (r: seq<string>)
    ensures |r| == |parts| && forall i | 0 <= i < |parts| :: r[i] == Capitalize(parts[i])
  {
    seq(|parts|, i requires 0 <= i < |parts| => Capitalize(parts[i]))
  }

  /** `camel_case`: the underscores go, and every piece between them is capitalised. */
  function CamelCase(s: string): (r: string)
    ensures '_' !in r
  {
    var pieces := Capitalized(Split(s, '_'));
    forall i | 0 <= i < |pieces|
      ensures '_' !in pieces[i]
    {
      CapitalizeKeeps(Split(s, '_')[i], '_');
    }
    JoinFree(pieces, "", '_');
    Join(pieces, "")
  }

  /** The underscore the pattern `(?<!^)(?=[A-Z])` inserts before each upper-case letter after the first position. */
  function MarkRest(t: string): (r: string)
  {
    if |t| == 0 then ""
    else (if IsUpper(t[0]) then "_" + [t[0]] else [t[0]]) + MarkRest(t[1..])
  }

  /** `snake_case` */
  function SnakeCase(s: string): (r: string)
    ensures |s| > 0 ==> |r| > 0 && r[0] == ToLower(s[0])
  {
    Lower(if |s| == 0 then "" else [s[0]] + MarkRest(s[1..]))
  }

  /** The number of upper-case letters. */
  function Uppers(t: string): nat
  {
    if |t| == 0 then 0 else (if IsUpper(t[0]) then 1 else 0) + Uppers(t[1..])
  }

  /** `snake_case` adds one character per upper-case letter after the first position, and no more. */
  lemma SnakeCaseLength(s: string)
    ensures |SnakeCase(s)| == |s| + (if |s| == 0 then 0 else Uppers(s[1..]))
  {
    if |s| > 0 {
      MarkRestLength(s[1..]);
    }
  }

  lemma {:induction false} MarkRestLength(t: string)
    ensures |MarkRest(t)| == |t| + Uppers(t)
  {
    if |t| > 0 {
      MarkRestLength(t[1..]);
    }
  }

  /** `snake_case` leaves no upper-case letter. */
  lemma SnakeCaseLower(s: string)
    ensures forall i | 0 <= i < |SnakeCase(s)| :: !IsUpper(SnakeCase(s)[i])
  {
  }

  /** Capitalising neither adds nor removes a character that case mapping leaves alone. */
  lemma CapitalizeKeeps(s: string, c: char)
    requires c !in s && !IsUpper(c) && !IsLower(c)
    ensures c !in Capitalize(s)
  {
  }

  lemma {:induction false} JoinFree(parts: seq<string>, sep: string, c: char)
    requires c !in sep && forall i | 0 <= i < |parts| :: c !in parts[i]
    ensures c !in Join(parts, sep)
  {
    if |parts| > 1 {
      JoinFree(parts[1..], sep, c);
    }
  }

  /** Empty pieces vanish: doubled underscores leave no trace. */
  lemma CamelCaseDropsEmptyPieces()
    ensures CamelCase("a__b") == "AB"
  {
    SplitFree("b");
    assert Split("_b", '_') == ["", "b"];
    SplitPrefix("a", "_b");
    assert "a" + ("_" + "_b") == "a__b";
    assert Capitalize("a") == "A" && Capitalize("") == "" && Capitalize("b") == "B";
    assert Capitalized(["a", "", "b"]) == ["A", "", "B"];
  }

  /** A leading underscore leaves no trace either. */
  lemma CamelCaseDropsLeadingUnderscore()
    ensures CamelCase("_user") == "User"
  {
    SplitFree("user");
    SplitPrefix("", "user");
    assert "" + ("_" + "user") == "_user";
    assert Capitalize("user") == "User";
    assert Capitalized(["", "user"]) == ["", "User"];
  }

  /** A snake-case word: a lower-case ASCII letter, then lower-case letters and digits. */
  predicate Word(w: string)
  {
    |w| > 0 && IsLower(w[0]) && forall i | 0 < i < |w| :: IsLower(w[i]) || '0' <= w[i] <= '9'
  }

  /**
   * `snake_case(camel_case(s)) == s` for a name made of words joined by single underscores:
   * the two conversions are inverse on the names the framework derives class names from.
   */
  lemma SnakeCaseOfCamelCase(words: seq<string>)
    requires |words| > 0 && forall i | 0 <= i < |words| :: Word(words[i])
    ensures SnakeCase(CamelCase(Join(words, "_"))) == Join(words, "_")
  {
    forall i | 0 <= i < |words|
      ensures '_' !in words[i]
    {
      WordHasNoUnderscore(words[i]);
    }
    var rest := words[1..];
    assert forall i | 0 <= i < |rest| :: Word(rest[i]) by {
      assert forall i | 0 <= i < |rest| :: rest[i] == words[i + 1];
    }
    var tail := Join(Capitalized(rest), "");
    calc {
      SnakeCase(CamelCase(Join(words, "_")));
      { CamelCaseOfJoin(words); }
      SnakeCase(Join(Capitalized(words), ""));
      { CapitalizedCons(words); }
      SnakeCase(Capitalize(words[0]) + tail);
      { HeadRoundTrip(words[0], tail); }
      words[0] + Lower(MarkRest(tail));
      { TailRoundTrip(rest); }
      words[0] + Underscored(rest);
      { JoinUnderscored(words); }
      Join(words, "_");
    }
  }

  lemma CapitalizedCons(words: seq<string>)
    requires |words| > 0
    ensures Join(Capitalized(words), "") == Capitalize(words[0]) + Join(Capitalized(words[1..]), "")
  {
    var caps := Capitalized(words);
    JoinEmptyCons(caps);
    assert caps[1..] == Capitalized(words[1..]);
  }

  lemma WordHasNoUnderscore(w: string)
    requires Word(w)
    ensures '_' !in w
  {
    forall i | 0 <= i < |w|
      ensures w[i] != '_'
    {
    }
  }

  /** `camel_case` of words joined by underscores capitalises each word. */
  lemma CamelCaseOfJoin(words: seq<string>)
    requires |words| > 0 && forall i | 0 <= i < |words| :: '_' !in words[i]
    ensures CamelCase(Join(words, "_")) == Join(Capitalized(words), "")
  {
    SplitJoin(words);
  }

  /** `"".join(parts)` is the first part followed by the join of the others. */
  lemma JoinEmptyCons(parts: seq<string>)
    requires |parts| > 0
    ensures Join(parts, "") == parts[0] + Join(parts[1..], "")
  {
    if |parts| > 1 {
      assert parts[0] + "" + Join(parts[1..], "") == parts[0] + Join(parts[1..], "");
    } else {
      assert parts[0] + "" == parts[0];
    }
  }

  /** The first capitalised word turns back into the word, with no underscore before it. */
  lemma HeadRoundTrip(w: string, tail: string)
    requires Word(w)
    ensures SnakeCase(Capitalize(w) + tail) == w + Lower(MarkRest(tail))
  {
    AllLowerFixed(w[1..]);
    var c := Capitalize(w);
    assert c == [ToUpper(w[0])] + w[1..];
    assert (c + tail)[1..] == w[1..] + tail;
    MarkRestAppend(w[1..], tail);
    NoUpperFixed(w[1..]);
    var marked := [ToUpper(w[0])] + (w[1..] + MarkRest(tail));
    assert (c + tail)[0] == ToUpper(w[0]);
    assert SnakeCase(c + tail) == Lower(marked);
    LowerAppend([ToUpper(w[0])], w[1..] + MarkRest(tail));
    LowerAppend(w[1..], MarkRest(tail));
    assert Lower([ToUpper(w[0])]) == [w[0]];
    assert Lower(marked) == [w[0]] + (w[1..] + Lower(MarkRest(tail)));
    ConsSplit(w, Lower(MarkRest(tail)));
  }

  lemma ConsSplit(w: string, x: string)
    requires |w| > 0
    ensures [w[0]] + (w[1..] + x) == w + x
  {
    assert [w[0]] + w[1..] == w;
  }

  /** A later capitalised word turns back into an underscore and the word. */
  lemma CapWordRoundTrip(w: string)
    requires Word(w)
    ensures Lower(MarkRest(Capitalize(w))) == "_" + w
  {
    var u := ToUpper(w[0]);
    var t := w[1..];
    assert forall i | 0 <= i < |t| :: !IsUpper(t[i]) by {
      assert forall i | 0 <= i < |t| :: t[i] == w[i + 1];
    }
    calc {
      Lower(MarkRest(Capitalize(w)));
      { CapitalizeWord(w); }
      Lower(MarkRest([u] + t));
      { MarkRestAppend([u], t); MarkRestUpper(u); NoUpperFixed(t); }
      Lower(['_', u] + t);
      { LowerAppend(['_', u], t); LowerMarked(w[0]); AllLowerFixed(t); }
      ['_', w[0]] + t;
      { ConsSplit(w, ""); }
      "_" + w;
    }
  }

  lemma CapitalizeWord(w: string)
    requires |w| > 0 && forall i | 0 < i < |w| :: !IsUpper(w[i])
    ensures Capitalize(w) == [ToUpper(w[0])] + w[1..]
  {
    var t := w[1..];
    assert forall i | 0 <= i < |t| :: !IsUpper(t[i]) by {
      assert forall i | 0 <= i < |t| :: t[i] == w[i + 1];
    }
    AllLowerFixed(t);
  }

  lemma MarkRestUpper(u: char)
    requires IsUpper(u)
    ensures MarkRest([u]) == ['_', u]
  {
    assert [u][1..] == "";
  }

  lemma LowerMarked(c: char)
    requires IsLower(c)
    ensures Lower(['_', ToUpper(c)]) == ['_', c]
  {
  }

  /** `"".join("_" + w for w in words)` */
  function Underscored(words: seq<string>): string
  {
    if |words| == 0 then "" else "_" + words[0] + Underscored(words[1..])
  }

  lemma {:induction false} JoinUnderscored(words: seq<string>)
    requires |words| > 0
    ensures Join(words, "_") == words[0] + Underscored(words[1..])
  {
    if |words| > 1 {
      JoinUnderscored(words[1..]);
      assert words[1..][1..] == words[2..];
    }
  }

  /** After the first word, each capitalised word turns back into an underscore and the word. */
  lemma {:induction false} TailRoundTrip(words: seq<string>)
    requires forall i | 0 <= i < |words| :: Word(words[i])
    ensures Lower(MarkRest(Join(Capitalized(words), ""))) == Underscored(words)
  {
    if |words| > 0 {
      var caps := Capitalized(words);
      var tail := Join(caps[1..], "");
      assert caps[1..] == Capitalized(words[1..]);
      TailRoundTrip(words[1..]);
      JoinEmptyCons(caps);
      MarkRestAppend(caps[0], tail);
      LowerAppend(MarkRest(caps[0]), MarkRest(tail));
      CapWordRoundTrip(words[0]);
    }
  }

  lemma {:induction false} SplitJoin(words: seq<string>)
    requires |words| > 0 && forall i | 0 <= i < |words| :: '_' !in words[i]
    ensures Split(Join(words, "_"), '_') == words
  {
    if |words| == 1 {
      SplitFree(words[0]);
    } else {
      SplitJoin(words[1..]);
      SplitPrefix(words[0], Join(words[1..], "_"));
      assert words[0] + "_" + Join(words[1..], "_") == words[0] + ("_" + Join(words[1..], "_"));
    }
  }

  lemma {:induction false} SplitFree(w: string)
    requires '_' !in w
    ensures Split(w, '_') == [w]
  {
    if |w| > 0 {
      SplitFree(w[1..]);
      assert [w[0]] + w[1..] == w;
    }
  }

  lemma {:induction false} SplitPrefix(w: string, t: string)
    requires '_' !in w
    ensures Split(w + ("_" + t), '_') == [w] + Split(t, '_')
  {
    if |w| == 0 {
      assert w + ("_" + t) == "_" + t;
      assert ("_" + t)[1..] == t;
    } else {
      assert (w + ("_" + t))[1..] == w[1..] + ("_" + t);
      SplitPrefix(w[1..], t);
      assert [w[0]] + w[1..] == w;
    }
  }

  lemma {:induction false} MarkRestAppend(a: string, b: string)
    ensures MarkRest(a + b) == MarkRest(a) + MarkRest(b)
  {
    if |a| == 0 {
      assert a + b == b;
    } else {
      assert (a + b)[1..] == a[1..] + b;
      MarkRestAppend(a[1..], b);
    }
  }

  lemma {:induction false} NoUpperFixed(t: string)
    requires forall i | 0 <= i < |t| :: !IsUpper(t[i])
    ensures MarkRest(t) == t
  {
    if |t| > 0 {
      NoUpperFixed(t[1..]);
    }
  }

  lemma AllLowerFixed(t: string)
    requires forall i | 0 <= i < |t| :: !IsUpper(t[i])
    ensures Lower(t) == t
  {
  }

  lemma LowerAppend(a: string, b: string)
    ensures Lower(a + b) == Lower(a) + Lower(b)
  {
  }
}
