/** Values and string operations shared by the whole model: an optional value
    (JavaScript's `undefined`) and the few JavaScript string primitives the
    program relies on, written out so that their behaviour is explicit. */
module Common {

  datatype Option<+T> = None | Some(value: T) {
    function GetOr(default: T): T {
      match this
      case Some(v) => v
      case None => default
    }
  }

  /** JavaScript truthiness of an optional string: present and not empty. */
  predicate Truthy(s: Option<string>) {
    s.Some? && s.value != ""
  }

  /** `a || b` on optional strings: the first operand when truthy, else the second. */
  function OrElse(s: Option<string>, fallback: string): (r: string)
    ensures Truthy(s) ==> r == s.value
    ensures !Truthy(s) ==> r == fallback
  {
    if Truthy(s) then s.value else fallback
  }

  /** The characters matched by `\s` in a JavaScript regular expression, which
      are also the characters `String.prototype.trim` removes. */
  predicate IsWhitespace(c: char) {
    c == ' ' || c == '\t' || c == '\n' || c == '\r' || c == '\U{000B}' || c == '\U{000C}'
    || c == '\U{00A0}' || c == '\U{1680}' || ('\U{2000}' <= c <= '\U{200A}')
    || c == '\U{2028}' || c == '\U{2029}' || c == '\U{202F}' || c == '\U{205F}'
    || c == '\U{3000}' || c == '\U{FEFF}'
  }

  /** `s.trim() === ''`: the string holds nothing but whitespace. */
  predicate IsBlank(s: string) {
    s == [] || (IsWhitespace(s[0]) && IsBlank(s[1..]))
  }

  /** A blank string is one made of whitespace only. */
  lemma {:induction false} IsBlankAllWhitespace(s: string)
    ensures IsBlank(s) <==> forall i :: 0 <= i < |s| ==> IsWhitespace(s[i])
  {
    if s != [] {
      IsBlankAllWhitespace(s[1..]);
      assert forall i :: 1 <= i < |s| ==> s[i] == s[1..][i - 1];
    }
  }

  predicate HasWhitespace(s: string) {
    exists i :: 0 <= i < |s| && IsWhitespace(s[i])
  }

  predicate StartsWith(s: string, prefix: string) {
    |prefix| <= |s| && s[..|prefix|] == prefix
  }

  predicate EndsWith(s: string, suffix: string) {
    |suffix| <= |s| && s[|s| - |suffix|..] == suffix
  }

  /** `s.replace(/\\/g, '/')`: every backslash becomes a forward slash. */
  function NormaliseSlashes(s: string): (r: string)
    ensures |r| == |s|
    ensures forall i :: 0 <= i < |s| ==> r[i] == (if s[i] == '\\' then '/' else s[i])
  {
    if s == [] then [] else [if s[0] == '\\' then '/' else s[0]] + NormaliseSlashes(s[1..])
  }

  lemma NormaliseSlashesIdempotent(s: string)
    ensures '\\' !in NormaliseSlashes(s)
    ensures NormaliseSlashes(NormaliseSlashes(s)) == NormaliseSlashes(s)
  {
    var r := NormaliseSlashes(s);
    assert forall i :: 0 <= i < |r| ==> r[i] != '\\';
  }

  lemma NormaliseSlashesIdentity(s: string)
    requires '\\' !in s
    ensures NormaliseSlashes(s) == s
  {
  }

  lemma NormaliseSlashesAppend(a: string, b: string)
    ensures NormaliseSlashes(a + b) == NormaliseSlashes(a) + NormaliseSlashes(b)
  {
  }

  /** `pat` occurs in `s` starting at position `j`. */
  predicate OccursAt(s: string, pat: string, j: nat) {
    j + |pat| <= |s| && s[j..j + |pat|] == pat
  }

  function IndexFrom(s: string, pat: string, i: nat): (r: Option<nat>)
    requires i <= |s| + 1
    ensures r.Some? ==> i <= r.value && OccursAt(s, pat, r.value)
    ensures r.Some? ==> forall j :: i <= j < r.value ==> !OccursAt(s, pat, j)
    ensures r.None? ==> forall j :: i <= j ==> !OccursAt(s, pat, j)
    decreases |s| + 1 - i
  {
    if i + |pat| > |s| then None
    else if s[i..i + |pat|] == pat then Some(i)
    else IndexFrom(s, pat, i + 1)
  }

  /** `s.indexOf(pat)`: the first position where `pat` occurs, if any. */
  function IndexOf(s: string, pat: string): (r: Option<nat>)
    ensures r.Some? ==> OccursAt(s, pat, r.value)
    ensures r.Some? ==> forall j :: 0 <= j < r.value ==> !OccursAt(s, pat, j)
    ensures r.None? ==> forall j :: !OccursAt(s, pat, j)
  {
    IndexFrom(s, pat, 0)
  }

  /** The text `s.replace(pat, rep)` inserts for the match when `pat` is a
      string (the GetSubstitution step that ECMA-262 defines for
      `String.prototype.replace`, with no capture groups): `$$` gives `$`, `$&` the matched text, `` $` ``
      the text before the match and `$'` the text after it; every other
      character, and every other `$`, stands for itself. */
  function Substitution(rep: string, matched: string, before: string, after: string): string
    decreases |rep|
  {
    if rep == [] then []
    else if |rep| >= 2 && rep[0] == '$' && rep[1] == '$' then "$" + Substitution(rep[2..], matched, before, after)
    else if |rep| >= 2 && rep[0] == '$' && rep[1] == '&' then matched + Substitution(rep[2..], matched, before, after)
    else if |rep| >= 2 && rep[0] == '$' && rep[1] == '`' then before + Substitution(rep[2..], matched, before, after)
    else if |rep| >= 2 && rep[0] == '$' && rep[1] == '\'' then after + Substitution(rep[2..], matched, before, after)
    else [rep[0]] + Substitution(rep[1..], matched, before, after)
  }

  /** A replacement without `$` is inserted as it is. */
  lemma {:induction false} SubstitutionLiteral(rep: string, matched: string, before: string, after: string)
    ensures '$' !in rep ==> Substitution(rep, matched, before, after) == rep
    decreases |rep|
  {
    if '$' !in rep && rep != [] {
      assert '$' !in rep[1..];
      SubstitutionLiteral(rep[1..], matched, before, after);
      assert [rep[0]] + rep[1..] == rep;
    }
  }

  /** `$&` stands for the matched text. */
  lemma SubstitutionOfMatch(matched: string, before: string, after: string)
    ensures Substitution("$&", matched, before, after) == matched
  {
    assert "$&"[2..] == [];
    assert matched + [] == matched;
  }

  /** `s.replace(pat, rep)` with a string pattern: only the first occurrence
      is replaced, by the substitution text of `rep`, and the string is
      unchanged when there is none. */
  function ReplaceFirst(s: string, pat: string, rep: string): (r: string)
  {
    match IndexOf(s, pat)
    case None => s
    case Some(k) => s[..k] + Substitution(rep, pat, s[..k], s[k + |pat|..]) + s[k + |pat|..]
  }

  lemma ReplaceFirstAtStart(s: string, pat: string, rep: string)
    requires StartsWith(s, pat)
    ensures ReplaceFirst(s, pat, rep) == Substitution(rep, pat, "", s[|pat|..]) + s[|pat|..]
    ensures '$' !in rep ==> ReplaceFirst(s, pat, rep) == rep + s[|pat|..]
  {
    assert OccursAt(s, pat, 0);
    var k := IndexOf(s, pat);
    assert k == Some(0);
    assert s[..0] == "";
    SubstitutionLiteral(rep, pat, "", s[|pat|..]);
  }

  lemma ReplaceFirstAbsent(s: string, pat: string, rep: string)
    requires forall j :: !OccursAt(s, pat, j)
    ensures ReplaceFirst(s, pat, rep) == s
  {
  }

  /** `parts.join(sep)`. */
  function Join(parts: seq<string>, sep: string): string
  {
    if |parts| == 0 then ""
    else if |parts| == 1 then parts[0]
    else parts[0] + sep + Join(parts[1..], sep)
  }

  /** `s.split(d)` for a one-character separator: the pieces between the
      separators, empty pieces included; never an empty list. */
  function SplitOn(s: string, d: char): (r: seq<string>)
    ensures |r| >= 1
  {
    if s == [] then [""]
    else
      var rest := SplitOn(s[1..], d);
      if s[0] == d then [""] + rest else [[s[0]] + rest[0]] + rest[1..]
  }

  lemma {:induction false} SplitOnPiecesFree(s: string, d: char)
    ensures forall k :: 0 <= k < |SplitOn(s, d)| ==> d !in SplitOn(s, d)[k]
  {
    if s != [] {
      SplitOnPiecesFree(s[1..], d);
    }
  }

  /** Joining the pieces of a split with the separator gives the string back. */
  lemma {:induction false} JoinSplitOn(s: string, d: char)
    ensures Join(SplitOn(s, d), [d]) == s
  {
    if s != [] {
      JoinSplitOn(s[1..], d);
      var rest := SplitOn(s[1..], d);
      if s[0] == d {
        assert SplitOn(s, d) == [""] + rest;
        assert ([""] + rest)[1..] == rest;
      } else {
        var r := SplitOn(s, d);
        assert r == [[s[0]] + rest[0]] + rest[1..];
        if |rest| == 1 {
          assert Join(r, [d]) == [s[0]] + rest[0];
        } else {
          assert r[1..] == rest[1..];
          assert Join(rest, [d]) == rest[0] + [d] + Join(rest[1..], [d]);
        }
      }
    }
  }

  /** The end of the run of whitespace that starts at position `i`. */
  function WhitespaceRunEnd(s: string, i: nat): (j: nat)
    requires i <= |s|
    ensures i <= j <= |s|
    ensures forall k :: i <= k < j ==> IsWhitespace(s[k])
    ensures j < |s| ==> !IsWhitespace(s[j])
    decreases |s| - i
  {
    if i < |s| && IsWhitespace(s[i]) then WhitespaceRunEnd(s, i + 1) else i
  }

  /** `s.split(/\s+/g)`: the pieces between maximal runs of whitespace. A
      leading or trailing run gives an empty first or last piece; the empty
      string gives one empty piece. */
  function SplitWhitespace(s: string): (r: seq<string>)
    ensures |r| >= 1
    ensures forall k :: 0 <= k < |r| ==> !HasWhitespace(r[k])
    ensures s != [] && !IsWhitespace(s[0]) ==> r[0] != []
    ensures forall k :: 0 < k < |r| - 1 ==> r[k] != []
    ensures HasWhitespace(s) ==> |r| >= 2
    decreases |s|
  {
    if s == [] then [""]
    else if !IsWhitespace(s[0]) then
      var rest := SplitWhitespace(s[1..]);
      ConsNoWhitespace(s[0], rest[0]);
      assert HasWhitespace(s) ==> HasWhitespace(s[1..]) by {
        if HasWhitespace(s) {
          var i :| 0 <= i < |s| && IsWhitespace(s[i]);
          assert s[1..][i - 1] == s[i];
        }
      }
      [[s[0]] + rest[0]] + rest[1..]
    else
      [""] + SplitWhitespace(s[WhitespaceRunEnd(s, 0)..])
  }

  lemma ConsNoWhitespace(c: char, w: string)
    requires !IsWhitespace(c) && !HasWhitespace(w)
    ensures !HasWhitespace([c] + w)
  {
    forall i | 0 <= i < |[c] + w| ensures !IsWhitespace(([c] + w)[i]) {
      if i > 0 {
        assert ([c] + w)[i] == w[i - 1];
      }
    }
  }

  /** A non-whitespace character in front of the string extends its first piece. */
  lemma SplitWhitespaceCons(c: char, t: string)
    requires !IsWhitespace(c)
    ensures SplitWhitespace([c] + t) == [[c] + SplitWhitespace(t)[0]] + SplitWhitespace(t)[1..]
  {
    assert ([c] + t)[1..] == t;
  }

  /** A string that is empty or starts with whitespace has an empty first piece. */
  lemma SplitWhitespaceFirstEmpty(t: string)
    requires t == [] || IsWhitespace(t[0])
    ensures SplitWhitespace(t)[0] == ""
  {
  }

  lemma {:induction false} SplitWhitespaceWord(w: string, t: string)
    requires w != [] && !HasWhitespace(w)
    requires t == [] || IsWhitespace(t[0])
    ensures SplitWhitespace(w + t) == [w] + SplitWhitespace(t)[1..]
    decreases |w|
  {
    assert w + t == [w[0]] + (w[1..] + t);
    SplitWhitespaceCons(w[0], w[1..] + t);
    if |w| > 1 {
      assert !HasWhitespace(w[1..]) by {
        forall i | 0 <= i < |w[1..]| ensures !IsWhitespace(w[1..][i]) {
          assert w[1..][i] == w[i + 1];
        }
      }
      SplitWhitespaceWord(w[1..], t);
      assert [w[0]] + w[1..] == w;
    } else {
      assert w[1..] + t == t;
      SplitWhitespaceFirstEmpty(t);
      assert [w[0]] + "" == w;
    }
  }

  /** Splitting on whitespace undoes joining with single spaces, provided that
      every token is non-empty and free of whitespace. */
  lemma {:induction false} SplitWhitespaceJoin(tokens: seq<string>)
    requires |tokens| >= 1
    requires forall k :: 0 <= k < |tokens| ==> tokens[k] != [] && !HasWhitespace(tokens[k])
    ensures SplitWhitespace(Join(tokens, " ")) == tokens
  {
    if |tokens| == 1 {
      SplitWhitespaceWord(tokens[0], []);
      assert tokens[0] + [] == tokens[0];
    } else {
      var tail := Join(tokens[1..], " ");
      SplitWhitespaceJoin(tokens[1..]);
      JoinStartsWithFirst(tokens[1..], " ");
      var t := " " + tail;
      assert Join(tokens, " ") == tokens[0] + t;
      SplitWhitespaceWord(tokens[0], t);
      assert tail[0] == tokens[1][0];
      assert WhitespaceRunEnd(t, 1) == 1;
      assert WhitespaceRunEnd(t, 0) == 1;
      assert t[1..] == tail;
      assert SplitWhitespace(t) == [""] + tokens[1..];
      assert [tokens[0]] + tokens[1..] == tokens;
    }
  }

  lemma JoinStartsWithFirst(parts: seq<string>, sep: string)
    requires |parts| >= 1
    ensures StartsWith(Join(parts, sep), parts[0])
  {
  }

  /** With no arguments the joined command ends in a space, and splitting it
      leaves a trailing empty argument. */
  lemma SplitWhitespaceTrailingSpace(w: string)
    requires w != [] && !HasWhitespace(w)
    ensures SplitWhitespace(w + " ") == [w, ""]
  {
    SplitWhitespaceWord(w, " ");
    assert WhitespaceRunEnd(" ", 0) == 1;
    assert " "[1..] == [];
  }

  function DigitChar(d: nat): (c: char)
    requires d < 10
  {
    "0123456789"[d]
  }

  /** The decimal text of a natural number, as a JavaScript template prints it. */
  function NatToString(n: nat): (r: string)
    ensures |r| >= 1
    ensures forall i :: 0 <= i < |r| ==> '0' <= r[i] <= '9'
  {
    if n < 10 then [DigitChar(n)] else NatToString(n / 10) + [DigitChar(n % 10)]
  }

  /** The number a decimal reader gives for a string of digits. */
  function DecimalValue(s: string): int
  {
    if s == [] then 0 else DecimalValue(s[..|s| - 1]) * 10 + ((s[|s| - 1] as int) - ('0' as int))
  }

  lemma {:induction false} NatToStringValue(n: nat)
    ensures DecimalValue(NatToString(n)) == n
  {
    var r := NatToString(n);
    if n < 10 {
      assert r[..0] == [];
    } else {
      NatToStringValue(n / 10);
      assert r[..|r| - 1] == NatToString(n / 10);
    }
  }

  /** The decimal text of an integer: a `-` for a negative number, then the
      digits of its magnitude. */
  function IntToString(n: int): (r: string)
    ensures |r| >= 1
    ensures (r[0] == '-') <==> n < 0
    ensures forall i :: (if n < 0 then 1 else 0) <= i < |r| ==> '0' <= r[i] <= '9'
    ensures n >= 0 ==> DecimalValue(r) == n
    ensures n < 0 ==> |r| >= 2 && DecimalValue(r[1..]) == -n
  {
    if n < 0 then
      SignedDigits(-n);
      "-" + NatToString(-n)
    else
      NatToStringValue(n);
      NatToString(n)
  }

  lemma SignedDigits(m: nat)
    ensures var r := "-" + NatToString(m);
      && |r| >= 2 && r[0] == '-' && r[1..] == NatToString(m) && DecimalValue(r[1..]) == m
      && forall i :: 1 <= i < |r| ==> '0' <= r[i] <= '9'
  {
    var digits := NatToString(m);
    var r := "-" + digits;
    assert r[1..] == digits;
    NatToStringValue(m);
    forall i | 1 <= i < |r| ensures '0' <= r[i] <= '9' {
      assert r[i] == digits[i - 1];
    }
  }

  /** Different numbers print differently. */
  lemma IntToStringInjective(a: int, b: int)
    requires IntToString(a) == IntToString(b)
    ensures a == b
  {
  }

  lemma ConcatAssoc<T>(x: seq<T>, y: seq<T>, z: seq<T>)
    ensures x + (y + z) == (x + y) + z
  {
  }

  /** The position of the first item that satisfies `matches`, if any. */
  function FirstIndex<T>(items: seq<T>, matches: T -> bool): (r: Option<nat>)
    ensures r.Some? ==> r.value < |items| && matches(items[r.value])
    ensures r.Some? ==> forall j :: 0 <= j < r.value ==> !matches(items[j])
    ensures r.None? ==> forall j :: 0 <= j < |items| ==> !matches(items[j])
  {
    if |items| == 0 then None
    else if matches(items[0]) then Some(0)
    else match FirstIndex(items[1..], matches)
      case None => None
      case Some(k) => Some(k + 1)
  }

  /** The first match is the only position with that property. */
  lemma FirstIndexUnique<T>(items: seq<T>, matches: T -> bool, k: nat)
    requires k < |items| && matches(items[k])
    requires forall j :: 0 <= j < k ==> !matches(items[j])
    ensures FirstIndex(items, matches) == Some(k)
  {
  }

  function ItemAt<T>(items: seq<T>, k: Option<nat>): Option<T>
    requires k.Some? ==> k.value < |items|
  {
    match k
    case None => None
    case Some(i) => Some(items[i])
  }
}
