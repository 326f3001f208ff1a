/** How much of the user's memory note is shown when the request is over budget. */
module MemoryFit {
  import opened Prelude
  import opened Text

  const OMITTED := "\n\U{2026}[memory omitted by context budget]"
  const NOTHING := "\U{65E0}"

  // ---------- What is shown ----------

  function EscapeChar(c: char): string {
    match c
    case '&' => "&amp;"
    case '<' => "&lt;"
    case '>' => "&gt;"
    case '"' => "&quot;"
    case '\'' => "&#x27;"
    case _ => [c]
  }

  function Expand(f: char -> string, s: string): string {
    if s == [] then [] else f(s[0]) + Expand(f, s[1..])
  }

  function Escape(s: string): string { Expand(EscapeChar, s) }

  /** The rest of the request: its size without the memory, and the text that stands for omitted memory. */
  datatype Frame = Frame(base: nat, mark: string)

  function Limited(v: Frame, note: string, limit: Option<nat>): string {
    if limit.Some? && |note| > limit.value then note[..limit.value] + v.mark else note
  }

  function Shown(v: Frame, note: string, limit: Option<nat>): string {
    var text := Limited(v, note, limit);
    if text == [] then NOTHING else Escape(text)
  }

  function Size(v: Frame, note: string, limit: Option<nat>): nat { v.base + |Shown(v, note, limit)| }

  predicate Fits(v: Frame, note: string, budget: int, k: nat) { Size(v, note, Some(k)) <= budget }

  lemma {:induction false} ExpandAvoids(f: char -> string, s: string, bad: set<char>)
    requires forall c, d :: d in f(c) ==> d !in bad
    ensures forall d :: d in Expand(f, s) ==> d !in bad
  {
    if s != [] { ExpandAvoids(f, s[1..], bad); }
  }

  /** Shown memory holds no markup character, so it cannot leave the element that marks it as data. */
  lemma EscapedHasNoMarkup(s: string)
    ensures forall c :: c in Escape(s) ==> c !in {'<', '>', '"', '\''}
  {
    ExpandAvoids(EscapeChar, s, {'<', '>', '"', '\''});
  }

  /** The character an entity at the start of the text stands for, with its length. */
  ghost function Entity(s: string): Option<(char, nat)> {
    if "&amp;" <= s then Some(('&', 5))
    else if "&lt;" <= s then Some(('<', 4))
    else if "&gt;" <= s then Some(('>', 4))
    else if "&quot;" <= s then Some(('"', 6))
    else if "&#x27;" <= s then Some(('\'', 6))
    else None
  }

  /** What a reader of the escaped text makes of it. */
  ghost function Unescape(s: string): string {
    if s == [] then []
    else
      var e := Entity(s);
      if e.Some? then [e.value.0] + Unescape(s[e.value.1..]) else [s[0]] + Unescape(s[1..])
  }

  lemma EntityOf(c: char, rest: string)
    ensures Entity(EscapeChar(c) + rest) == if EscapeChar(c) == [c] then None else Some((c, |EscapeChar(c)|))
  {
    var s := EscapeChar(c) + rest;
    assert EscapeChar(c) <= s && s[0] == EscapeChar(c)[0];
    if s[0] == '&' { assert s[1] == EscapeChar(c)[1]; }
  }

  lemma UnescapeStep(c: char, rest: string)
    ensures Unescape(EscapeChar(c) + rest) == [c] + Unescape(rest)
  {
    EntityOf(c, rest);
    assert (EscapeChar(c) + rest)[|EscapeChar(c)|..] == rest;
  }

  /** Nothing is lost by escaping: unescaping gives the text back. */
  lemma {:induction false} EscapeRoundTrip(s: string)
    ensures Unescape(Escape(s)) == s
  {
    if s != [] {
      EscapeRoundTrip(s[1..]);
      UnescapeStep(s[0], Escape(s[1..]));
      assert Escape(s) == EscapeChar(s[0]) + Escape(s[1..]);
    }
  }

  // ---------- Shape of the size ----------

  function Width(f: char -> string, s: string): nat {
    if s == [] then 0 else |f(s[0])| + Width(f, s[1..])
  }

  lemma {:induction false} ExpandWidth(f: char -> string, s: string)
    ensures |Expand(f, s)| == Width(f, s)
  {
    if s != [] { ExpandWidth(f, s[1..]); }
  }

  lemma {:induction false} WidthAppend(f: char -> string, a: string, b: string)
    ensures Width(f, a + b) == Width(f, a) + Width(f, b)
  {
    if a == [] {
      assert a + b == b;
    } else {
      WidthAppend(f, a[1..], b);
      assert (a + b)[1..] == a[1..] + b;
    }
  }

  lemma {:induction false} WidthBounds(f: char -> string, s: string)
    requires forall c :: 1 <= |f(c)| <= 6
    ensures |s| <= Width(f, s) <= 6 * |s|
  {
    if s != [] { WidthBounds(f, s[1..]); }
  }

  lemma WidthRises(f: char -> string, s: string, j: nat, k: nat)
    requires j <= k <= |s|
    ensures Width(f, s[..j]) <= Width(f, s[..k])
  {
    assert s[..k] == s[..j] + s[j..k];
    WidthAppend(f, s[..j], s[j..k]);
  }

  lemma ShortSize(v: Frame, note: string, k: nat)
    requires k < |note| && v.mark != []
    ensures Size(v, note, Some(k)) == v.base + Width(EscapeChar, note[..k]) + Width(EscapeChar, v.mark)
  {
    ExpandWidth(EscapeChar, note[..k] + v.mark);
    WidthAppend(EscapeChar, note[..k], v.mark);
  }

  /** Below full length a longer prefix never costs less. */
  lemma SizeRises(v: Frame, note: string, j: nat, k: nat)
    requires j <= k < |note| && v.mark != []
    ensures Size(v, note, Some(j)) <= Size(v, note, Some(k))
  {
    ShortSize(v, note, j);
    ShortSize(v, note, k);
    WidthRises(EscapeChar, note, j, k);
  }

  /** At full length the omission marker goes away, and the size always drops. */
  lemma SizeDropsAtFullLength(v: Frame, note: string)
    requires note != [] && |v.mark| > 6
    ensures Size(v, note, Some(|note|)) < Size(v, note, Some(|note| - 1))
  {
    var k := |note| - 1;
    ShortSize(v, note, k);
    ExpandWidth(EscapeChar, note);
    assert note == note[..k] + note[k..];
    WidthAppend(EscapeChar, note[..k], note[k..]);
    WidthBounds(EscapeChar, note[k..]);
    WidthBounds(EscapeChar, v.mark);
  }

  // ---------- Search ----------

  /** The longest fitting prefix of length at most k, found by trying every length downwards. */
  function Longest(v: Frame, note: string, budget: int, k: nat): nat {
    if k == 0 || Fits(v, note, budget, k) then k else Longest(v, note, budget, k - 1)
  }

  /** Once the whole note does not fit, a prefix fits whenever a longer one does. */
  lemma FitsDownward(v: Frame, note: string, budget: int, j: nat, k: nat)
    requires v.mark != [] && Size(v, note, None) > budget && j <= k <= |note| && Fits(v, note, budget, k)
    ensures k < |note| && Fits(v, note, budget, j)
  {
    SizeRises(v, note, j, k);
  }

  lemma {:induction false} LongestIs(v: Frame, note: string, budget: int, n: nat, low: nat)
    requires low <= n && (low == 0 || Fits(v, note, budget, low))
    requires forall k :: low < k <= n ==> !Fits(v, note, budget, k)
    ensures Longest(v, note, budget, n) == low
  {
    if n > low { LongestIs(v, note, budget, n - 1, low); }
  }

  /** The binary search finds what the linear one does. */
  method SearchPrefix(v: Frame, note: string, budget: int) returns (low: nat)
    requires v.mark != [] && Size(v, note, None) > budget && Fits(v, note, budget, 0)
    ensures low < |note| && Fits(v, note, budget, low) && forall k :: low < k <= |note| ==> !Fits(v, note, budget, k)
    ensures low == Longest(v, note, budget, |note|)
  {
    low := 0;
    var high := |note|;
    while low < high
      invariant low <= high <= |note| && Fits(v, note, budget, low)
      invariant forall k :: high < k <= |note| ==> !Fits(v, note, budget, k)
    {
      var candidate := (low + high + 1) / 2;
      if Fits(v, note, budget, candidate) {
        low := candidate;
      } else {
        forall k | candidate <= k <= |note| ensures !Fits(v, note, budget, k) {
          if Fits(v, note, budget, k) { FitsDownward(v, note, budget, candidate, k); }
        }
        high := candidate - 1;
      }
    }
    FitsDownward(v, note, budget, low, low);
    LongestIs(v, note, budget, |note|, low);
  }

  /** What the request ends up with: the memory limit, and whether the skill catalogue stays. */
  datatype Projection = Projection(limit: Option<nat>, catalog: bool, truncated: bool, estimated: nat)

  method Override(full: nat, lean: nat, persistentNote: string, budget: int) returns (r: Projection)
    ensures var note, v := Strip(persistentNote), Frame(full, OMITTED);
            && r.estimated == Size(if r.catalog then v else Frame(lean, OMITTED), note, r.limit)
            && (r.limit.None? <==> Size(v, note, None) <= budget)
            && (r.catalog <==> Size(v, note, None) <= budget || Fits(v, note, budget, 0))
            && (r.catalog ==> r.estimated <= budget)
            && (r.limit.Some? ==>
                  r.limit.value == if r.catalog then Longest(v, note, budget, |note|) else 0)
            && (r.truncated <==> r.limit.Some? && r.limit.value < |note|)
  {
    var note, v := Strip(persistentNote), Frame(full, OMITTED);
    var estimated := Size(v, note, None);
    if estimated <= budget { return Projection(None, true, false, estimated); }
    if Fits(v, note, budget, 0) {
      var low := SearchPrefix(v, note, budget);
      return Projection(Some(low), true, low < |note|, Size(v, note, Some(low)));
    }
    r := Projection(Some(0), false, |note| > 0, Size(Frame(lean, OMITTED), note, Some(0)));
  }
}
