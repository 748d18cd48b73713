/** The last check on a written answer (backend/chat/grounding.py 152-175): runs of digits, and the ways of putting text
together that add none. */
module Grounding {
  import opened Basics

  /** What Python's str knows of characters, as far as the answers use it. */
  datatype Unicode = Unicode(digit: char -> bool, space: char -> bool, lower: char -> char, upper: char -> string)

  /** A decimal digit is no white space and has no case; full stops and colons are not digits. */
  ghost predicate Sane(u: Unicode) {
    && (forall c :: u.space(c) ==> !u.digit(c))
    && (forall c :: u.digit(u.lower(c)) == u.digit(c))
    && (forall c :: u.digit(c) ==> u.upper(c) == [c])
    && (forall c :: !u.digit(c) ==> NoDigits(u, u.upper(c)))
    && !u.digit('.') && !u.digit(':')
  }

  predicate NoDigits(u: Unicode, s: string) {
    forall i :: 0 <= i < |s| ==> !u.digit(s[i])
  }

  // --- runs ---

  /** s[i..j] is digits, with none on either side. */
  predicate IsRun(u: Unicode, s: string, i: int, j: int) {
    && 0 <= i < j <= |s| && (forall k :: i <= k < j ==> u.digit(s[k]))
    && (i == 0 || !u.digit(s[i - 1])) && (j == |s| || !u.digit(s[j]))
  }

  /** The digits at the front. */
  function Leading(u: Unicode, s: string): (n: nat)
    ensures n <= |s| && (n == |s| || !u.digit(s[n]))
    ensures forall k :: 0 <= k < n ==> u.digit(s[k])
  {
    if s != "" && u.digit(s[0]) then 1 + Leading(u, s[1..]) else 0
  }

  /** `_RUN_RE.findall`. */
  function FindAll(u: Unicode, s: string): seq<string>
    decreases |s|
  {
    if s == "" then []
    else if u.digit(s[0]) then [s[..Leading(u, s)]] + FindAll(u, s[Leading(u, s)..])
    else FindAll(u, s[1..])
  }

  /** Every run of the text is known. */
  ghost predicate Known(u: Unicode, s: string, known: set<string>) {
    forall i, j :: IsRun(u, s, i, j) ==> s[i..j] in known
  }

  predicate AllIn(found: seq<string>, known: set<string>) {
    forall i :: 0 <= i < |found| ==> found[i] in known
  }

  /** A run of the end of a text that starts where the text has no digit before it is a run of the text. */
  lemma RunOfRest(u: Unicode, s: string, k: nat, i: int, j: int)
    requires k <= |s| && (k == 0 || !u.digit(s[k - 1]) || (k < |s| && !u.digit(s[k])))
    ensures IsRun(u, s[k..], i, j) <==> 0 <= i && IsRun(u, s, k + i, k + j)
  {
    if 0 <= i <= j <= |s| - k {
      SliceOfSlice(s, k, |s|, i, j);
      assert s[k..|s|] == s[k..];
    }
  }

  lemma FirstRun(u: Unicode, s: string, i: int, j: int)
    requires s != "" && u.digit(s[0]) && IsRun(u, s, i, j)
    ensures (i == 0 && j == Leading(u, s)) || i >= Leading(u, s)
  {
  }

  lemma SkipsOne(u: Unicode, s: string, known: set<string>)
    requires s != "" && !u.digit(s[0])
    ensures Known(u, s, known) <==> Known(u, s[1..], known)
  {
    forall i, j ensures IsRun(u, s[1..], i, j) <==> 0 <= i && IsRun(u, s, 1 + i, 1 + j) {
      RunOfRest(u, s, 1, i, j);
    }
    forall i, j | IsRun(u, s, i, j)
      ensures i >= 1 && IsRun(u, s[1..], i - 1, j - 1) && s[i..j] == s[1..][i - 1..j - 1]
    {
      RunOfRest(u, s, 1, i - 1, j - 1);
    }
    forall i, j | IsRun(u, s[1..], i, j) ensures IsRun(u, s, 1 + i, 1 + j) && s[1..][i..j] == s[1 + i..1 + j] {
      RunOfRest(u, s, 1, i, j);
    }
  }

  lemma LeadingIsRun(u: Unicode, s: string, n: nat)
    requires s != "" && u.digit(s[0]) && n == Leading(u, s)
    ensures IsRun(u, s, 0, n) && s[0..n] == s[..n]
  {
  }

  lemma RestIsKnown(u: Unicode, s: string, known: set<string>, n: nat)
    requires s != "" && u.digit(s[0]) && n == Leading(u, s) && Known(u, s, known)
    ensures Known(u, s[n..], known)
  {
    forall i, j | IsRun(u, s[n..], i, j) ensures s[n..][i..j] in known {
      RunOfRest(u, s, n, i, j);
      SliceOfSlice(s, n, |s|, i, j);
      assert s[n..|s|] == s[n..];
    }
  }

  lemma WholeIsKnown(u: Unicode, s: string, known: set<string>, n: nat)
    requires s != "" && u.digit(s[0]) && n == Leading(u, s) && s[..n] in known && Known(u, s[n..], known)
    ensures Known(u, s, known)
  {
    LeadingIsRun(u, s, n);
    forall i, j | IsRun(u, s, i, j) ensures s[i..j] in known {
      FirstRun(u, s, i, j);
      if i >= n {
        RunOfRest(u, s, n, i - n, j - n);
        SliceOfSlice(s, n, |s|, i - n, j - n);
        assert s[n..|s|] == s[n..];
      }
    }
  }

  lemma SkipsRun(u: Unicode, s: string, known: set<string>, n: nat)
    requires s != "" && u.digit(s[0]) && n == Leading(u, s)
    ensures Known(u, s, known) <==> s[..n] in known && Known(u, s[n..], known)
  {
    if Known(u, s, known) {
      LeadingIsRun(u, s, n);
      RestIsKnown(u, s, known, n);
    } else if s[..n] in known && Known(u, s[n..], known) {
      WholeIsKnown(u, s, known, n);
    }
  }

  lemma AllInFirst(first: string, rest: seq<string>, known: set<string>)
    ensures AllIn([first] + rest, known) <==> first in known && AllIn(rest, known)
  {
    var all := [first] + rest;
    if AllIn(all, known) {
      assert all[0] == first;
      forall i | 0 <= i < |rest| ensures rest[i] in known {
        assert all[i + 1] == rest[i];
      }
    }
  }

  /** The regular expression finds exactly the maximal runs of digits. */
  lemma {:induction false} FindAllFindsTheRuns(u: Unicode, s: string, known: set<string>)
    ensures AllIn(FindAll(u, s), known) <==> Known(u, s, known)
    decreases |s|
  {
    if s != "" {
      if u.digit(s[0]) {
        var n := Leading(u, s);
        SkipsRun(u, s, known, n);
        FindAllFindsTheRuns(u, s[n..], known);
        AllInFirst(s[..n], FindAll(u, s[n..]), known);
      } else {
        SkipsOne(u, s, known);
        FindAllFindsTheRuns(u, s[1..], known);
      }
    }
  }

  // --- putting text together ---

  predicate Apart(u: Unicode, a: string, b: string) {
    a == "" || b == "" || !u.digit(a[|a| - 1]) || !u.digit(b[0])
  }

  /** Texts that do not meet digit to digit have together the runs they have apart. */
  lemma JoinedIsKnown(u: Unicode, a: string, b: string, known: set<string>)
    requires Apart(u, a, b) && Known(u, a, known) && Known(u, b, known)
    ensures Known(u, a + b, known)
  {
    var s := a + b;
    forall i, j | IsRun(u, s, i, j) ensures s[i..j] in known {
      RunOnOneSide(u, a, b, i, j);
      if j <= |a| {
        assert s[i..j] == a[i..j];
      } else {
        assert s[i..j] == b[i - |a|..j - |a|];
      }
    }
  }

  lemma RunOnOneSide(u: Unicode, a: string, b: string, i: int, j: int)
    requires Apart(u, a, b) && IsRun(u, a + b, i, j)
    ensures IsRun(u, a, i, j) || (i >= |a| && IsRun(u, b, i - |a|, j - |a|))
    ensures IsRun(u, a, i, j) <==> j <= |a|
  {
    var s := a + b;
    if a != "" && b != "" {
      assert s[|a| - 1] == a[|a| - 1] && s[|a|] == b[0];
    }
    forall k | 0 <= k < |a| ensures s[k] == a[k] {
    }
    forall k | 0 <= k < |b| ensures s[|a| + k] == b[k] {
    }
  }

  lemma PlainIsKnown(u: Unicode, s: string, known: set<string>)
    requires NoDigits(u, s)
    ensures Known(u, s, known)
  {
    forall i, j ensures !IsRun(u, s, i, j) {
      if 0 <= i < j <= |s| {
        assert !u.digit(s[i]);
      }
    }
  }

  /** Cutting text where a character that is no digit is left out adds no run. */
  lemma CutIsKnown(u: Unicode, s: string, from: nat, to: nat, known: set<string>)
    requires from <= to <= |s| && Known(u, s, known)
    requires (from == 0 || !u.digit(s[from - 1])) && (to == |s| || !u.digit(s[to]))
    ensures Known(u, s[from..to], known)
  {
    var part := s[from..to];
    forall i, j | IsRun(u, part, i, j) ensures part[i..j] in known {
      SliceOfSlice(s, from, to, i, j);
      assert IsRun(u, s, from + i, from + j);
    }
  }

  // --- the ways an answer is put together ---

  function Strip(u: Unicode, s: string): string {
    StripEnd(u, StripStart(u, s))
  }

  function StripStart(u: Unicode, s: string): string {
    if s != "" && u.space(s[0]) then StripStart(u, s[1..]) else s
  }

  function StripEnd(u: Unicode, s: string): string {
    if s != "" && u.space(s[|s| - 1]) then StripEnd(u, s[..|s| - 1]) else s
  }

  /** `rstrip(".")`. */
  function StripStops(s: string): string {
    if s != "" && s[|s| - 1] == '.' then StripStops(s[..|s| - 1]) else s
  }

  /** `_sentence`. */
  function Sentence(u: Unicode, text: string): string {
    var t := Strip(u, text);
    if t == "" || t[|t| - 1] in {'.', '?', '!', '\U{2026}'} then t else t + "."
  }

  /** `verdict[:1].upper() + verdict[1:]`. */
  function Capital(u: Unicode, s: string): string {
    if s == "" then "" else u.upper(s[0]) + s[1..]
  }

  const OWN_HEAD: string := "not measured:"

  function Lower(u: Unicode, s: string): string {
    if s == "" then "" else [u.lower(s[0])] + Lower(u, s[1..])
  }

  /** `_reason`. */
  function WithoutHead(u: Unicode, text: string): string {
    var t := Strip(u, text);
    if OWN_HEAD <= Lower(u, t) && |OWN_HEAD| <= |t| then Strip(u, t[|OWN_HEAD|..]) else t
  }

  /** Fixed words between two texts, or after one. */
  function Put(before: string, fixed: string, field: string): string {
    before + fixed + field
  }

  function End(before: string, fixed: string): string {
    before + fixed
  }

  function NonEmpty(items: seq<string>): seq<string> {
    if items == [] then []
    else NonEmpty(items[..|items| - 1]) + if items[|items| - 1] != "" then [items[|items| - 1]] else []
  }

  function JoinAll(between: string, items: seq<string>): string {
    if items == [] then ""
    else if |items| == 1 then items[0]
    else Put(JoinAll(between, items[..|items| - 1]), between, items[|items| - 1])
  }

  /** `_join` and `_join_or`. */
  function Join(between: string, last: string, items: seq<string>): string {
    var some := NonEmpty(items);
    if |some| <= 1 then JoinAll("", some)
    else Put(JoinAll(between, some[..|some| - 1]), last, some[|some| - 1])
  }

  /** Fixed words: there are some, and no digit among them. */
  predicate Plain(u: Unicode, s: string) {
    s != "" && NoDigits(u, s)
  }

  // --- what is cut off and what is added ---

  predicate Blank(u: Unicode, s: string) {
    forall i :: 0 <= i < |s| ==> u.space(s[i])
  }

  lemma {:induction false} StartIsCut(u: Unicode, s: string) returns (k: nat)
    ensures k <= |s| && StripStart(u, s) == s[k..] && (k == |s| || !u.space(s[k]))
    ensures forall i :: 0 <= i < k ==> u.space(s[i])
  {
    if s != "" && u.space(s[0]) {
      var rest := s[1..];
      var j := StartIsCut(u, rest);
      k := j + 1;
      assert forall i :: 1 <= i < k ==> s[i] == rest[i - 1];
    } else {
      k := 0;
    }
  }

  lemma {:induction false} EndIsCut(u: Unicode, s: string) returns (k: nat)
    ensures k <= |s| && StripEnd(u, s) == s[..k] && (k == 0 || !u.space(s[k - 1]))
    ensures forall i :: k <= i < |s| ==> u.space(s[i])
  {
    if s != "" && u.space(s[|s| - 1]) {
      var init := s[..|s| - 1];
      k := EndIsCut(u, init);
      assert forall i :: k <= i < |init| ==> s[i] == init[i];
    } else {
      k := |s|;
    }
  }

  /** Stripping takes the white space at both ends, all of it and nothing else. */
  lemma StripTakesTheEnds(u: Unicode, s: string) returns (i: nat, j: nat)
    ensures i <= j <= |s| && Strip(u, s) == s[i..j]
    ensures forall k :: 0 <= k < i || j <= k < |s| ==> u.space(s[k])
    ensures i < j ==> !u.space(s[i]) && !u.space(s[j - 1])
  {
    i := StartIsCut(u, s);
    var t := s[i..];
    var n := EndIsCut(u, t);
    j := i + n;
    assert t[..n] == s[i..j];
    forall k | j <= k < |s| ensures u.space(s[k]) {
      assert s[k] == t[k - i];
    }
  }

  /** A sentence is the stripped text, with a full stop exactly when it is not empty and has no end of its own. */
  lemma SentenceEnds(u: Unicode, text: string)
    ensures var s, t := Sentence(u, text), Strip(u, text);
      && t <= s && (s == "" <==> Blank(u, text))
      && (s != "" ==> s[|s| - 1] == '.' || s[|s| - 1] == '?' || s[|s| - 1] == '!' || s[|s| - 1] == '\U{2026}')
      && (s != t ==> s == t + "." && t[|t| - 1] !in ".?!\U{2026}")
  {
    var i, j := StripTakesTheEnds(u, text);
    assert i < j ==> !u.space(text[i]);
  }

  /** The full stops at the end go, all of them and nothing else. */
  lemma {:induction false} StopsGo(s: string) returns (k: nat)
    ensures k <= |s| && StripStops(s) == s[..k] && (k == 0 || s[k - 1] != '.')
    ensures forall i :: k <= i < |s| ==> s[i] == '.'
  {
    if s != "" && s[|s| - 1] == '.' {
      k := StopsGo(s[..|s| - 1]);
    } else {
      k := |s|;
    }
  }

  lemma {:induction false} StripStartCuts(u: Unicode, s: string) returns (k: nat)
    requires Sane(u)
    ensures k <= |s| && StripStart(u, s) == s[k..] && (k == 0 || !u.digit(s[k - 1]))
  {
    if s != "" && u.space(s[0]) {
      var rest := StripStartCuts(u, s[1..]);
      k := rest + 1;
    } else {
      k := 0;
    }
  }

  lemma {:induction false} StripEndCuts(u: Unicode, s: string) returns (k: nat)
    requires Sane(u)
    ensures k <= |s| && StripEnd(u, s) == s[..k] && (k == |s| || !u.digit(s[k]))
  {
    if s != "" && u.space(s[|s| - 1]) {
      k := StripEndCuts(u, s[..|s| - 1]);
    } else {
      k := |s|;
    }
  }

  lemma {:induction false} StripStopsCuts(u: Unicode, s: string) returns (k: nat)
    requires Sane(u)
    ensures k <= |s| && StripStops(s) == s[..k] && (k == |s| || !u.digit(s[k]))
  {
    if s != "" && s[|s| - 1] == '.' {
      k := StripStopsCuts(u, s[..|s| - 1]);
    } else {
      k := |s|;
    }
  }

  lemma StripIsKnown(u: Unicode, s: string, known: set<string>)
    requires Sane(u) && Known(u, s, known)
    ensures Known(u, Strip(u, s), known)
  {
    var from := StripStartCuts(u, s);
    CutIsKnown(u, s, from, |s|, known);
    var t := StripStart(u, s);
    assert s[from..|s|] == t;
    var to := StripEndCuts(u, t);
    CutIsKnown(u, t, 0, to, known);
    assert t[0..to] == t[..to];
  }

  lemma StripStopsIsKnown(u: Unicode, s: string, known: set<string>)
    requires Sane(u) && Known(u, s, known)
    ensures Known(u, StripStops(s), known)
  {
    var to := StripStopsCuts(u, s);
    CutIsKnown(u, s, 0, to, known);
    assert s[0..to] == s[..to];
  }

  lemma SentenceIsKnown(u: Unicode, s: string, known: set<string>)
    requires Sane(u) && Known(u, s, known)
    ensures Known(u, Sentence(u, s), known)
  {
    StripIsKnown(u, s, known);
    PlainIsKnown(u, ".", known);
    JoinedIsKnown(u, Strip(u, s), ".", known);
  }

  lemma CapitalIsKnown(u: Unicode, s: string, known: set<string>)
    requires Sane(u) && Known(u, s, known)
    ensures Known(u, Capital(u, s), known)
  {
    if s != "" {
      if u.digit(s[0]) {
        assert Capital(u, s) == s;
      } else {
        CutIsKnown(u, s, 1, |s|, known);
        assert s[1..|s|] == s[1..];
        PlainIsKnown(u, u.upper(s[0]), known);
        JoinedIsKnown(u, u.upper(s[0]), s[1..], known);
      }
    }
  }

  lemma {:induction false} LowerAt(u: Unicode, s: string, i: nat)
    requires i < |s|
    ensures |Lower(u, s)| == |s| && Lower(u, s)[i] == u.lower(s[i])
  {
    if i > 0 {
      LowerAt(u, s[1..], i - 1);
    } else if |s| > 1 {
      LowerAt(u, s[1..], 0);
    }
  }

  lemma WithoutHeadIsKnown(u: Unicode, s: string, known: set<string>)
    requires Sane(u) && Known(u, s, known)
    ensures Known(u, WithoutHead(u, s), known)
  {
    StripIsKnown(u, s, known);
    var t := Strip(u, s);
    if OWN_HEAD <= Lower(u, t) && |OWN_HEAD| <= |t| {
      var n := |OWN_HEAD|;
      LowerAt(u, t, n - 1);
      assert u.lower(t[n - 1]) == OWN_HEAD[n - 1] == ':';
      CutIsKnown(u, t, n, |t|, known);
      assert t[n..|t|] == t[n..];
      StripIsKnown(u, t[n..], known);
    }
  }

  lemma PutIsKnown(u: Unicode, before: string, fixed: string, field: string, known: set<string>)
    requires Plain(u, fixed) && Known(u, before, known) && Known(u, field, known)
    ensures Known(u, Put(before, fixed, field), known)
  {
    EndIsKnown(u, before, fixed, known);
    JoinedIsKnown(u, before + fixed, field, known);
  }

  lemma EndIsKnown(u: Unicode, before: string, fixed: string, known: set<string>)
    requires Plain(u, fixed) && Known(u, before, known)
    ensures Known(u, End(before, fixed), known)
  {
    PlainIsKnown(u, fixed, known);
    JoinedIsKnown(u, before, fixed, known);
  }

  ghost predicate AllKnown(u: Unicode, items: seq<string>, known: set<string>) {
    forall i :: 0 <= i < |items| ==> Known(u, items[i], known)
  }

  lemma {:induction false} NonEmptyAreKnown(u: Unicode, items: seq<string>, known: set<string>)
    requires AllKnown(u, items, known)
    ensures AllKnown(u, NonEmpty(items), known)
  {
    if items != [] {
      NonEmptyAreKnown(u, items[..|items| - 1], known);
    }
  }

  lemma {:induction false} JoinAllIsKnown(u: Unicode, between: string, items: seq<string>, known: set<string>)
    requires AllKnown(u, items, known) && (|items| <= 1 || Plain(u, between))
    ensures Known(u, JoinAll(between, items), known)
  {
    if items == [] {
      PlainIsKnown(u, "", known);
    } else if |items| > 1 {
      JoinAllIsKnown(u, between, items[..|items| - 1], known);
      PutIsKnown(u, JoinAll(between, items[..|items| - 1]), between, items[|items| - 1], known);
    }
  }

  lemma JoinIsKnown(u: Unicode, between: string, last: string, items: seq<string>, known: set<string>)
    requires AllKnown(u, items, known) && Plain(u, between) && Plain(u, last)
    ensures Known(u, Join(between, last, items), known)
  {
    NonEmptyAreKnown(u, items, known);
    var some := NonEmpty(items);
    if |some| <= 1 {
      JoinAllIsKnown(u, "", some, known);
    } else {
      JoinAllIsKnown(u, between, some[..|some| - 1], known);
      PutIsKnown(u, JoinAll(between, some[..|some| - 1]), last, some[|some| - 1], known);
    }
  }
}
