/** Message entities cut to the text they annotate, in place: the result shares the array of the
    argument, and the entities it keeps are the argument's own objects. */
module EntityBounds {

  /** An entity as a value. `settable` says that its length field can be written. */
  datatype Span = Span(offset: int, length: int, settable: bool)

  predicate Keeps(s: Span, textLength: nat) {
    0 <= s.offset < textLength && s.length > 0 && (s.length <= textLength - s.offset || s.settable)
  }

  function Trimmed(s: Span, textLength: nat): Span {
    s.(length := if s.length > textLength - s.offset then textLength - s.offset else s.length)
  }

  /** Where the entities that stay are among the first n, in order. */
  function KeptAt(spans: seq<Span>, textLength: nat, n: nat): (at: seq<nat>)
    requires n <= |spans|
    ensures forall k | 0 <= k < |at| :: at[k] < n
  {
    if n == 0 then [] else KeptAt(spans, textLength, n - 1) + (if Keeps(spans[n - 1], textLength) then [n - 1] else [])
  }

  function Kept(spans: seq<Span>, textLength: nat): seq<nat> { KeptAt(spans, textLength, |spans|) }

  /** The entities that stay, at most as long as the text allows. */
  function Clamped(spans: seq<Span>, textLength: nat): (r: seq<Span>)
    ensures |r| == |Kept(spans, textLength)|
  {
    var at := Kept(spans, textLength);
    seq(|at|, k requires 0 <= k < |at| => Trimmed(spans[at[k]], textLength))
  }

  /** Those positions, each once, in order. */
  lemma {:induction false} KeptAtIsExact(spans: seq<Span>, textLength: nat, n: nat)
    requires n <= |spans|
    ensures var at := KeptAt(spans, textLength, n);
      && (forall j, k | 0 <= j < k < |at| :: at[j] < at[k])
      && (forall i: nat :: i in at <==> i < n && Keeps(spans[i], textLength))
  {
    if n > 0 { KeptAtIsExact(spans, textLength, n - 1); }
  }

  class Entity {
    const offset: int
    var length: int
    const settable: bool

    constructor (offset: int, length: int, settable: bool)
      ensures this.offset == offset && this.length == length && this.settable == settable
    {
      this.offset, this.length, this.settable := offset, length, settable;
    }

    function View(): Span
      reads this
    {
      Span(offset, length, settable)
    }

    /** One round of the loop: whether the entity stays, cut to the text if it has to be. */
    method Cut(textLength: nat) returns (stays: bool)
      modifies `length
      ensures stays <==> Keeps(old(View()), textLength)
      ensures View() == if stays then Trimmed(old(View()), textLength) else old(View())
    {
      if offset < 0 || length <= 0 || offset >= textLength { return false; }
      var maxLength := textLength - offset;
      if length > maxLength {
        if !settable { return false; }
        length := maxLength;
      }
      return true;
    }
  }

  function Views(es: seq<Entity>): (spans: seq<Span>)
    reads es
    ensures |spans| == |es| && forall i | 0 <= i < |es| :: spans[i] == es[i].View()
  {
    seq(|es|, i requires 0 <= i < |es| reads es => es[i].View())
  }

  /** The first n slots of the array are the result; the same object may stand in several slots. */
  method ClampEntityBounds(entities: array<Entity>, textLength: nat) returns (n: nat)
    modifies entities, entities[..]
    ensures n == |Kept(old(Views(entities[..])), textLength)| <= entities.Length
    ensures forall k | 0 <= k < n :: entities[k] == old(entities[Kept(Views(entities[..]), textLength)[k]])
    ensures forall k | 0 <= k < n :: entities[k].View() == Clamped(old(Views(entities[..])), textLength)[k]
    ensures forall k | n <= k < entities.Length :: entities[k] == old(entities[k])
  {
    hide *;
    ghost var was, spans := entities[..], Views(entities[..]);
    ghost var at: seq<nat> := [];
    n := 0;
    Untouched(entities, was, spans, textLength);
    for i := 0 to entities.Length
      invariant n == |at| && at == KeptAt(spans, textLength, i)
      invariant SlotsFilled(entities, was, at, i) && CurrentAll(was, spans, textLength, i)
    {
      SlotAhead(entities, was, at, i);
      KeptNext(spans, textLength, i);
      var stays := Round(entities[i], textLength, was, spans, i);
      if stays {
        Place(entities, n, i, was, at);
        n, at := n + 1, at + [i];
      } else {
        PassedBy(entities, was, at, i);
      }
    }
    AllFilled(entities, was, at, spans, textLength);
  }

  /** The positions `at`, all among the first i, were copied to the front; the rest is as it was. */
  ghost predicate Slots(now: seq<Entity>, was: seq<Entity>, at: seq<nat>, i: nat) {
    && |at| <= i <= |was| == |now|
    && (forall k {:trigger now[k]} | |at| <= k < |was| :: now[k] == was[k])
    && (forall k {:trigger now[k]} | 0 <= k < |at| :: at[k] < i && now[k] == was[at[k]])
  }

  lemma SlotWritten(now: seq<Entity>, was: seq<Entity>, at: seq<nat>, i: nat)
    requires Slots(now, was, at, i) && i < |now|
    ensures |at| <= i < |now| && Slots(now[|at| := now[i]], was, at + [i], i + 1)
  {
    var n := |at|;
    var now', at' := now[n := now[i]], at + [i];
    assert now[i] == was[i];
    forall k | 0 <= k < n + 1 ensures at'[k] < i + 1 && now'[k] == was[at'[k]] {
      if k < n { assert now'[k] == now[k] && at'[k] == at[k]; } else { assert now'[k] == now[i] && at'[k] == i; }
    }
    forall k | n + 1 <= k < |was| ensures now'[k] == was[k] {
      assert now'[k] == now[k];
    }
  }

  ghost predicate SlotsFilled(entities: array<Entity>, was: seq<Entity>, at: seq<nat>, i: nat)
    reads entities
  {
    Slots(entities[..], was, at, i)
  }

  lemma SlotAhead(entities: array<Entity>, was: seq<Entity>, at: seq<nat>, i: nat)
    requires SlotsFilled(entities, was, at, i) && i < |was|
    ensures |at| <= i < entities.Length == |was| && entities[i] == was[i]
  {
    assert entities[..][i] == was[i];
  }

  lemma PassedBy(entities: array<Entity>, was: seq<Entity>, at: seq<nat>, i: nat)
    requires SlotsFilled(entities, was, at, i) && i < |was|
    ensures SlotsFilled(entities, was, at, i + 1)
  {
  }

  method Place(entities: array<Entity>, n: nat, i: nat, ghost was: seq<Entity>, ghost at: seq<nat>)
    requires SlotsFilled(entities, was, at, i) && n == |at| <= i < entities.Length
    modifies entities
    ensures SlotsFilled(entities, was, at + [i], i + 1)
  {
    hide Slots;
    ghost var now := entities[..];
    SlotWritten(now, was, at, i);
    entities[n] := entities[i];
    assert entities[..] == now[n := now[i]];
  }

  lemma KeptNext(spans: seq<Span>, textLength: nat, i: nat)
    requires i < |spans|
    ensures KeptAt(spans, textLength, i + 1) == KeptAt(spans, textLength, i) + (if Keeps(spans[i], textLength) then [i] else [])
  {
  }

  lemma AllFilled(entities: array<Entity>, was: seq<Entity>, at: seq<nat>, spans: seq<Span>, textLength: nat)
    requires |spans| == |was| && at == KeptAt(spans, textLength, |spans|) && SlotsFilled(entities, was, at, |was|)
    requires CurrentAll(was, spans, textLength, |was|)
    ensures at == Kept(spans, textLength) && |at| <= entities.Length
    ensures forall k | 0 <= k < |at| :: entities[k] == was[at[k]] && entities[k].View() == Clamped(spans, textLength)[k]
    ensures forall k | |at| <= k < entities.Length :: entities[k] == was[k]
  {
    hide CurrentAll, Clamped, KeptAt, Keeps;
    AllMet(was, spans, textLength);
    forall k | 0 <= k < entities.Length
      ensures k < |at| ==> entities[k] == was[at[k]]
      ensures k >= |at| ==> entities[k] == was[k]
    {
      assert entities[..][k] == entities[k];
    }
  }

  /** The entities are as they were, or cut; the first `met` of them are cut for good. */
  ghost predicate CurrentAll(was: seq<Entity>, spans: seq<Span>, textLength: nat, met: nat)
    reads was
  {
    |spans| == |was| && (forall i, j | 0 <= i < j < |was| && was[i] == was[j] :: spans[i] == spans[j]) &&
    forall j | 0 <= j < |was| :: Current(was[j].View(), spans[j], textLength, j < met)
  }

  method Round(e: Entity, textLength: nat, ghost was: seq<Entity>, ghost spans: seq<Span>, ghost i: nat) returns (stays: bool)
    requires |spans| == |was| && i < |was| && was[i] == e && CurrentAll(was, spans, textLength, i)
    modifies e`length
    ensures stays <==> Keeps(spans[i], textLength)
    ensures CurrentAll(was, spans, textLength, i + 1)
  {
    hide Keeps, Trimmed, Current;
    ghost var before := e.View();
    stays := e.Cut(textLength);
    CutIsCurrent(e.View(), before, spans[i], textLength);
  }

  /** What an entity may look like on the way: as it was, or cut, and cut for good once it was met. */
  predicate Current(now: Span, was: Span, textLength: nat, met: bool) {
    if Keeps(was, textLength) then now == Trimmed(was, textLength) || (!met && now == was) else now == was
  }

  lemma Untouched(entities: array<Entity>, was: seq<Entity>, spans: seq<Span>, textLength: nat)
    requires was == entities[..] && spans == Views(was)
    ensures SlotsFilled(entities, was, [], 0) && CurrentAll(was, spans, textLength, 0)
    ensures KeptAt(spans, textLength, 0) == []
  {
  }

  lemma CutIsCurrent(after: Span, before: Span, was: Span, textLength: nat)
    requires Current(before, was, textLength, false)
    requires after == if Keeps(before, textLength) then Trimmed(before, textLength) else before
    ensures Keeps(before, textLength) <==> Keeps(was, textLength)
    ensures Current(after, was, textLength, true) && Current(after, was, textLength, false)
  {
  }

  lemma AllMet(was: seq<Entity>, spans: seq<Span>, textLength: nat)
    requires |spans| == |was| && CurrentAll(was, spans, textLength, |was|)
    ensures var at := Kept(spans, textLength);
      forall k | 0 <= k < |at| :: was[at[k]].View() == Clamped(spans, textLength)[k]
  {
    KeptAtIsExact(spans, textLength, |spans|);
    var at := Kept(spans, textLength);
    forall k | 0 <= k < |at| ensures was[at[k]].View() == Trimmed(spans[at[k]], textLength) {
      assert at[k] in at;
    }
  }

  // ---- What the result is good for ----

  predicate Inside(s: Span, textLength: nat) { 0 <= s.offset && s.length > 0 && s.offset + s.length <= textLength }

  /** Every entity that stays lies inside the text, with its offset unchanged, and in the old order;
      one that was inside is untouched. */
  lemma ClampedIsInside(spans: seq<Span>, textLength: nat)
    ensures forall k | 0 <= k < |Clamped(spans, textLength)| :: Inside(Clamped(spans, textLength)[k], textLength)
    ensures forall i | 0 <= i < |spans| && Inside(spans[i], textLength) :: spans[i] in Clamped(spans, textLength)
  {
    KeptAtIsExact(spans, textLength, |spans|);
    var at := Kept(spans, textLength);
    forall k | 0 <= k < |at| ensures Inside(Clamped(spans, textLength)[k], textLength) {
      assert at[k] in at;
    }
    forall i | 0 <= i < |spans| && Inside(spans[i], textLength) ensures spans[i] in Clamped(spans, textLength) {
      var k :| 0 <= k < |at| && at[k] == i;
      assert Clamped(spans, textLength)[k] == spans[i];
    }
  }

  predicate Covers(s: Span, p: int) { s.offset <= p < s.offset + s.length }

  /** No more is cut than has to be. An entity stays if and only if it marks something of the text, starts
      in it, and fits or can be cut; and then it marks the same of the text as before. */
  lemma MarksTheSameText(spans: seq<Span>, textLength: nat, i: nat)
    requires i < |spans|
    ensures i in Kept(spans, textLength) <==>
      && spans[i].offset >= 0 && (exists p :: 0 <= p < textLength && Covers(spans[i], p))
      && (spans[i].settable || spans[i].offset + spans[i].length <= textLength)
    ensures forall k, p | 0 <= k < |Kept(spans, textLength)| && Kept(spans, textLength)[k] == i && 0 <= p < textLength ::
      Covers(Clamped(spans, textLength)[k], p) <==> Covers(spans[i], p)
  {
    KeptAtIsExact(spans, textLength, |spans|);
    if 0 <= spans[i].offset < textLength && spans[i].length > 0 { assert Covers(spans[i], spans[i].offset); }
  }

  lemma {:induction false} AllKept(spans: seq<Span>, textLength: nat, n: nat)
    requires n <= |spans| && forall i | 0 <= i < n :: Inside(spans[i], textLength)
    ensures |KeptAt(spans, textLength, n)| == n && forall i | 0 <= i < n :: KeptAt(spans, textLength, n)[i] == i
  {
    if n > 0 { AllKept(spans, textLength, n - 1); }
  }

  lemma Idempotent(spans: seq<Span>, textLength: nat)
    ensures Clamped(Clamped(spans, textLength), textLength) == Clamped(spans, textLength)
  {
    ClampedIsInside(spans, textLength);
    AllKept(Clamped(spans, textLength), textLength, |Clamped(spans, textLength)|);
  }

  predicate Within(a: Span, b: Span) { b.offset <= a.offset && a.offset + a.length <= b.offset + b.length }

  predicate Apart(a: Span, b: Span) { a.offset + a.length <= b.offset || b.offset + b.length <= a.offset }

  /** Any two entities are nested or disjoint. */
  predicate Laminar(spans: seq<Span>) {
    forall i, j | 0 <= i < j < |spans| :: Within(spans[i], spans[j]) || Within(spans[j], spans[i]) || Apart(spans[i], spans[j])
  }

  lemma ClampedStaysLaminar(spans: seq<Span>, textLength: nat)
    requires Laminar(spans)
    ensures Laminar(Clamped(spans, textLength))
  {
    KeptAtIsExact(spans, textLength, |spans|);
    var at := Kept(spans, textLength);
    var r := Clamped(spans, textLength);
    forall j, k | 0 <= j < k < |r| ensures Within(r[j], r[k]) || Within(r[k], r[j]) || Apart(r[j], r[k]) {
      var a, b := spans[at[j]], spans[at[k]];
      assert Within(a, b) || Within(b, a) || Apart(a, b);
    }
  }
}
