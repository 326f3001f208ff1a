/** Chat messages, their size, and the tool-call protocol between them. */
module ContextMessages {
  import opened Prelude

  datatype Call = Call(id: Option<string>, name: string)

  datatype Message =
    | System(text: string, dynamic: bool)
    | Human(text: string)
    | AI(text: string, calls: seq<Call>)
    | Tool(text: string, callId: string, name: string)

  /** Token accounting and the parser of typed tool results, both outside this model:
      base covers the system prompt and the tool schemas, overhead what a message costs besides
      its text, and parse says whether a text is a typed result and whether it carries sources. */
  datatype World = World(base: nat, overhead: Message -> nat, parse: string -> Option<bool>)

  const MARKER := "\n\U{2026}[truncated by context budget]"

  // ---------- Size ----------

  function Cost(w: World, m: Message): nat { |m.text| + w.overhead(m.(text := "")) }

  function Total(w: World, ms: seq<Message>): nat {
    if ms == [] then 0 else Cost(w, ms[0]) + Total(w, ms[1..])
  }

  function Estimate(w: World, ms: seq<Message>): nat { w.base + Total(w, ms) }

  lemma {:induction false} TotalAppend(w: World, a: seq<Message>, b: seq<Message>)
    ensures Total(w, a + b) == Total(w, a) + Total(w, b)
  {
    if a == [] {
      assert a + b == b;
    } else {
      TotalAppend(w, a[1..], b);
      assert (a + b)[1..] == a[1..] + b;
    }
  }

  lemma TotalUpdate(w: World, ms: seq<Message>, i: nat, m: Message)
    requires i < |ms|
    ensures Total(w, ms[i := m]) == Total(w, ms) - Cost(w, ms[i]) + Cost(w, m)
  {
    assert ms == ms[..i] + ([ms[i]] + ms[i + 1..]);
    assert ms[i := m] == ms[..i] + ([m] + ms[i + 1..]);
    TotalAppend(w, ms[..i], [ms[i]] + ms[i + 1..]);
    TotalAppend(w, ms[..i], [m] + ms[i + 1..]);
  }

  function Flatten(turns: seq<seq<Message>>): seq<Message> {
    if turns == [] then [] else turns[0] + Flatten(turns[1..])
  }

  // ---------- Tool calls ----------

  const WEB_TOOLS := {"web_fetch", "web_search"}

  /** How the id of a call reads as text; an absent id reads "None". */
  function IdText(c: Call): string { if c.id.None? then "None" else c.id.value }

  predicate HasId(c: Call) { c.id.Some? && c.id.value != "" }

  function IdsOf(m: Message): set<string> {
    if m.AI? then set c | c in m.calls && HasId(c) :: IdText(c) else {}
  }

  /** Every tool result answers a call seen before it. */
  predicate ProtocolFrom(visible: set<string>, ms: seq<Message>)
    decreases |ms|
  {
    if ms == [] then true
    else (ms[0].Tool? ==> ms[0].callId in visible) && ProtocolFrom(visible + IdsOf(ms[0]), ms[1..])
  }

  predicate Protocol(ms: seq<Message>) { ProtocolFrom({}, ms) }

  lemma {:induction false} ProtocolGrows(v: set<string>, v': set<string>, ms: seq<Message>)
    requires v <= v' && ProtocolFrom(v, ms)
    ensures ProtocolFrom(v', ms)
    decreases |ms|
  {
    if ms != [] { ProtocolGrows(v + IdsOf(ms[0]), v' + IdsOf(ms[0]), ms[1..]); }
  }

  lemma {:induction false} ProtocolAppend(v: set<string>, a: seq<Message>, b: seq<Message>)
    requires ProtocolFrom(v, a) && Protocol(b)
    ensures ProtocolFrom(v, a + b)
    decreases |a|
  {
    if a == [] {
      assert a + b == b;
      ProtocolGrows({}, v, b);
    } else {
      ProtocolAppend(v + IdsOf(a[0]), a[1..], b);
      assert (a + b)[1..] == a[1..] + b;
    }
  }

  /** The protocol read position by position. */
  lemma {:induction false} ProtocolMeans(v: set<string>, ms: seq<Message>)
    ensures ProtocolFrom(v, ms) <==>
            forall i :: 0 <= i < |ms| && ms[i].Tool? ==>
              ms[i].callId in v || exists j :: 0 <= j < i && ms[i].callId in IdsOf(ms[j])
    decreases |ms|
  {
    if ms != [] {
      var v', rest := v + IdsOf(ms[0]), ms[1..];
      ProtocolMeans(v', rest);
      if ProtocolFrom(v, ms) {
        forall i | 0 <= i < |ms| && ms[i].Tool?
          ensures ms[i].callId in v || exists j :: 0 <= j < i && ms[i].callId in IdsOf(ms[j])
        {
          if i > 0 && ms[i].callId !in v {
            assert rest[i - 1] == ms[i];
            if ms[i].callId !in IdsOf(ms[0]) {
              var j :| 0 <= j < i - 1 && rest[i - 1].callId in IdsOf(rest[j]);
              assert rest[j] == ms[j + 1];
            }
          }
        }
      }
      if forall i :: 0 <= i < |ms| && ms[i].Tool? ==>
           ms[i].callId in v || exists j :: 0 <= j < i && ms[i].callId in IdsOf(ms[j])
      {
        forall i | 0 <= i < |rest| && rest[i].Tool?
          ensures rest[i].callId in v' || exists j :: 0 <= j < i && rest[i].callId in IdsOf(rest[j])
        {
          assert rest[i] == ms[i + 1];
          if rest[i].callId !in v' {
            var j :| 0 <= j < i + 1 && ms[i + 1].callId in IdsOf(ms[j]);
            assert j > 0 && rest[j - 1] == ms[j];
          }
        }
      }
    }
  }
}
