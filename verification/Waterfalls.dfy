/** Waterfall dispatch (events.go): a chain of steps, each of which settles once, computes the right-to-left
    composition of its listeners around the final function. */
module Waterfalls {
  import opened Options

  // ----- listeners -----

  type Value = int

  /** What `nil` is among the values. */
  const NIL: Value := 0

  /** What a body does next: it returns, panics, or calls `next`. */
  datatype Action = Return(v: Value) | Panic | Call(arg: Value)

  datatype Outcome = Ok(v: Value) | Panicked

  /** A listener's body as a function of its payload and of what its calls of `next` returned so far; it
      calls `next` at most `limit` times. */
  datatype Listener = Listener(act: (Value, seq<Value>) -> Action, limit: nat)

  ghost predicate Terminates(l: Listener) {
    forall v, h :: |h| >= l.limit ==> !l.act(v, h).Call?
  }

  /** One position of a chain: the listener, and whether this dispatch wins the claim when it gets there. */
  datatype Link = Link(listener: Listener, claimed: bool)

  ghost predicate AllTerminate(links: seq<Link>) {
    forall i :: 0 <= i < |links| ==> Terminates(links[i].listener)
  }

  // ----- what a chain means -----

  /** The rest of a body after `next` returned `h`: all its calls return what the first one returned. */
  ghost function Rest(l: Listener, v: Value, next: Value -> Value, h: seq<Value>): Value
    requires Terminates(l)
    decreases l.limit - |h|
  {
    match l.act(v, h)
    case Return(r) => r
    case Panic => if h == [] then next(v) else h[0]
    case Call(arg) => Rest(l, v, next, h + [if h == [] then next(arg) else h[0]])
  }

  /** A listener as a wrapper around the rest of the chain. */
  ghost function Wrap(link: Link, next: Value -> Value): Value -> Value
    requires Terminates(link.listener)
  {
    (v: Value) => if Terminates(link.listener) && link.claimed then Rest(link.listener, v, next, []) else next(v)
  }

  function Settle(final: Option<Value -> Outcome>, v: Value): Value {
    if final.None? then NIL
    else match final.value(v)
         case Ok(r) => r
         case Panicked => NIL
  }

  /** The composition of the listeners around `final`. */
  ghost function Composed(links: seq<Link>, final: Option<Value -> Outcome>): Value -> Value
    requires AllTerminate(links)
  {
    if links == [] then (v: Value) => Settle(final, v)
    else Wrap(links[0], Composed(links[1..], final))
  }

  /** What a listener makes of the rest of the chain depends only on what the rest returns. */
  lemma {:induction false} RestSame(l: Listener, v: Value, f: Value -> Value, g: Value -> Value, h: seq<Value>)
    requires Terminates(l) && forall x :: f(x) == g(x)
    ensures Rest(l, v, f, h) == Rest(l, v, g, h)
    decreases l.limit - |h|
  {
    if l.act(v, h).Call? {
      var arg := l.act(v, h).arg;
      assert f(arg) == g(arg);
      RestSame(l, v, f, g, h + [if h == [] then f(arg) else h[0]]);
    }
  }

  lemma {:induction false} PrefixSame(a: seq<Link>, b: seq<Link>, b': seq<Link>, final: Option<Value -> Outcome>,
      final': Option<Value -> Outcome>, v: Value)
    requires AllTerminate(a) && AllTerminate(b) && AllTerminate(b')
    requires forall x :: Composed(b, final)(x) == Composed(b', final')(x)
    ensures AllTerminate(a + b) && AllTerminate(a + b') && Composed(a + b, final)(v) == Composed(a + b', final')(v)
  {
    if a == [] {
      assert a + b == b && a + b' == b';
    } else {
      assert (a + b)[1..] == a[1..] + b && (a + b')[1..] == a[1..] + b';
      forall x ensures Composed(a[1..] + b, final)(x) == Composed(a[1..] + b', final')(x) {
        PrefixSame(a[1..], b, b', final, final', x);
      }
      if Terminates(a[0].listener) {
        RestSame(a[0].listener, v, Composed(a[1..] + b, final), Composed(a[1..] + b', final'), []);
      }
    }
  }

  /** A listener that takes no part: its claim fails, or it panics before it calls `next`. */
  ghost predicate Transparent(link: Link) {
    !link.claimed || forall v :: link.listener.act(v, []) == Panic
  }

  /** Such a listener can be left out anywhere in a chain. */
  lemma TransparentDrops(a: seq<Link>, link: Link, b: seq<Link>, final: Option<Value -> Outcome>, v: Value)
    requires AllTerminate(a) && AllTerminate(b) && Terminates(link.listener) && Transparent(link)
    ensures AllTerminate(a + ([link] + b)) && AllTerminate(a + b)
    ensures Composed(a + ([link] + b), final)(v) == Composed(a + b, final)(v)
  {
    assert ([link] + b)[1..] == b;
    forall x ensures Composed([link] + b, final)(x) == Composed(b, final)(x) { PassesOn(link, Composed(b, final), x); }
    PrefixSame(a, [link] + b, b, final, final, v);
  }

  lemma PassesOn(link: Link, next: Value -> Value, v: Value)
    requires Terminates(link.listener) && Transparent(link)
    ensures Wrap(link, next)(v) == next(v)
  {}

  /** A listener that returns without calling `next` cuts the chain: whatever comes after it is without effect, and
      with nobody before it the chain returns what it returned. */
  lemma VetoCuts(a: seq<Link>, link: Link, b: seq<Link>, b': seq<Link>, final: Option<Value -> Outcome>,
      final': Option<Value -> Outcome>, v: Value)
    requires AllTerminate(a) && AllTerminate(b) && AllTerminate(b') && Terminates(link.listener) && link.claimed
    requires forall x :: link.listener.act(x, []).Return?
    ensures AllTerminate(a + ([link] + b)) && AllTerminate(a + ([link] + b'))
    ensures Composed(a + ([link] + b), final)(v) == Composed(a + ([link] + b'), final')(v)
    ensures a == [] ==> Composed(a + ([link] + b), final)(v) == link.listener.act(v, []).v
  {
    assert ([link] + b)[1..] == b && ([link] + b')[1..] == b';
    forall x ensures Composed([link] + b, final)(x) == Composed([link] + b', final')(x) {
      Decides(link, Composed(b, final), x);
      Decides(link, Composed(b', final'), x);
    }
    PrefixSame(a, [link] + b, [link] + b', final, final', v);
    Decides(link, Composed(b, final), v);
    if a == [] { assert a + ([link] + b) == [link] + b; }
  }

  lemma Decides(link: Link, next: Value -> Value, v: Value)
    requires Terminates(link.listener) && link.claimed && link.listener.act(v, []).Return?
    ensures Wrap(link, next)(v) == link.listener.act(v, []).v
  {
    assert Rest(link.listener, v, next, []) == link.listener.act(v, []).v;
  }

  // ----- what comes out of a chain -----

  /** What the final function makes of `v` is `x`: its result, or nil if it panics or there is none. */
  predicate FinalSays(final: Option<Value -> Outcome>, v: Value, x: Value) {
    if final.Some? && final.value(v).Ok? then x == final.value(v).v else x == NIL
  }

  /** What a listener does to the payload on its way in, and to the result on its way out. */
  datatype Mapping = Mapping(inward: Value -> Value, outward: Value -> Value)

  /** The listener calls `next` once, with the payload mapped, and returns the result mapped; one that takes no
      part maps nothing. */
  ghost predicate MapsBy(link: Link, m: Mapping) {
    if Transparent(link) then forall v :: m.inward(v) == v && m.outward(v) == v
    else
      && (forall v :: link.listener.act(v, []) == Call(m.inward(v)))
      && (forall v, x :: link.listener.act(v, [x]) == Return(m.outward(x)))
  }

  ghost predicate MapsAll(links: seq<Link>, ms: seq<Mapping>) {
    |ms| == |links| && forall i :: 0 <= i < |links| ==> MapsBy(links[i], ms[i])
  }

  /** The payload through all listeners, first to last. */
  function Inward(ms: seq<Mapping>, v: Value): Value {
    if ms == [] then v else Inward(ms[1..], ms[0].inward(v))
  }

  /** The result back through all of them, last to first. */
  function Outward(ms: seq<Mapping>, x: Value): Value {
    if ms == [] then x else ms[0].outward(Outward(ms[1..], x))
  }

  /** The final function is asked about the payload as it comes in, and `r` is what goes out. */
  ghost predicate Yields(final: Option<Value -> Outcome>, ms: seq<Mapping>, payload: Value, r: Value) {
    exists x :: FinalSays(final, Inward(ms, payload), x) && r == Outward(ms, x)
  }

  /** A chain of such listeners hands the payload inward to the final function and its result outward. */
  lemma {:induction false} ChainMaps(links: seq<Link>, final: Option<Value -> Outcome>, ms: seq<Mapping>, v: Value)
    returns (x: Value)
    requires AllTerminate(links) && MapsAll(links, ms)
    ensures FinalSays(final, Inward(ms, v), x) && Composed(links, final)(v) == Outward(ms, x)
  {
    if links == [] {
      x := Composed(links, final)(v);
    } else {
      var next := Composed(links[1..], final);
      x := ChainMaps(links[1..], final, ms[1..], ms[0].inward(v));
      if !Transparent(links[0]) {
        var l, r := links[0].listener, next(ms[0].inward(v));
        assert Rest(l, v, next, []) == Rest(l, v, next, [] + [r]);
        assert [] + [r] == [r];
      }
    }
  }

  /** Listeners that only hand on, or take no part, leave what the final function says. */
  lemma {:induction false} HandsOnMaps(links: seq<Link>) returns (ms: seq<Mapping>)
    requires forall i :: 0 <= i < |links| ==> HandsOn(links[i])
    ensures MapsAll(links, ms) && (forall x :: Inward(ms, x) == x && Outward(ms, x) == x)
  {
    if links == [] {
      ms := [];
    } else {
      var rest := HandsOnMaps(links[1..]);
      var same := Mapping((x: Value) => x, (x: Value) => x);
      assert MapsBy(links[0], same);
      ms := [same] + rest;
      assert ms[1..] == rest;
      forall x ensures Inward(ms, x) == x && Outward(ms, x) == x {
        assert Inward(rest, x) == x && Outward(rest, x) == x;
        assert ms[0].inward(x) == x && ms[0].outward(x) == x;
      }
    }
  }

  ghost predicate HandsOn(link: Link) {
    Transparent(link)
    || ((forall v :: link.listener.act(v, []) == Call(v)) && (forall v, x :: link.listener.act(v, [x]) == Return(x)))
  }

  /** `k` copies of the one result the successor settled with. */
  function Same(r: Value, k: nat): (h: seq<Value>)
    ensures |h| == k && forall i :: 0 <= i < k ==> h[i] == r
  {
    if k == 0 then [] else Same(r, k - 1) + [r]
  }

  /** The body calls `next` exactly `k` times, each time getting `r`, and then does `last`. */
  ghost predicate CallsThen(l: Listener, v: Value, r: Value, k: nat, last: Action) {
    && (forall j :: 0 <= j < k ==> l.act(v, Same(r, j)).Call?)
    && l.act(v, Same(r, k)) == last && !last.Call?
  }

  lemma {:induction false} RestAfter(l: Listener, v: Value, next: Value -> Value, r: Value, j: nat, k: nat,
      last: Action)
    requires Terminates(l) && CallsThen(l, v, r, k, last) && 1 <= j <= k
    ensures Rest(l, v, next, Same(r, j)) == match last case Return(x) => x case Panic => r
    decreases k - j
  {
    if j < k {
      assert Same(r, j) + [r] == Same(r, j + 1);
      RestAfter(l, v, next, r, j + 1, k, last);
    }
  }

  /** However often a body calls `next`, it gets the settled result of its first call; if it panics after
      that, the settled result stands. */
  lemma CallsSettleOnce(link: Link, next: Value -> Value, v: Value, k: nat, last: Action)
    requires Terminates(link.listener) && link.claimed && k > 0 && link.listener.act(v, []).Call?
    requires CallsThen(link.listener, v, next(link.listener.act(v, []).arg), k, last)
    ensures Wrap(link, next)(v) == match last case Return(x) => x case Panic => next(link.listener.act(v, []).arg)
  {
    var r := next(link.listener.act(v, []).arg);
    assert Same(r, 0) == [] && [] + [r] == Same(r, 1);
    assert Rest(link.listener, v, next, []) == Rest(link.listener, v, next, [] + [r]);
    RestAfter(link.listener, v, next, r, 1, k, last);
  }

  // ----- waterfallStep -----

  /** One continuation. `runs` counts how often its listener or its final function ran. */
  class WaterfallStep {
    const link: Option<Link>
    const final: Option<Value -> Outcome>
    const next: WaterfallStep?
    var started: bool
    var finished: bool
    var result: Value
    var runs: nat
    ghost const links: seq<Link>
    ghost const Repr: set<WaterfallStep>

    ghost predicate Valid()
      decreases Repr
    {
      && this in Repr && AllTerminate(links)
      && (next == null <==> link.None?)
      && (next == null ==> links == [])
      && (next != null ==>
            && next in Repr && next.Repr < Repr && this !in next.Repr && next.Valid() && final == next.final
            && links == [link.value] + next.links)
    }

    /** Nobody called this step or one below it. */
    ghost predicate Untouched()
      reads Repr
      requires Valid()
      decreases Repr
    {
      !started && !finished && runs == 0 && (next != null ==> next.Untouched())
    }

    /** Nothing below ran twice. */
    ghost predicate RanOnce()
      reads Repr
      requires Valid()
      decreases Repr
    {
      runs <= 1 && (next != null ==> next.RanOnce())
    }

    lemma {:induction false} UntouchedOnce()
      requires Valid() && Untouched()
      ensures RanOnce()
      decreases Repr
    {
      if next != null { next.UntouchedOnce(); }
    }

    constructor Tail(final: Option<Value -> Outcome>)
      ensures Valid() && Untouched() && links == [] && this.final == final && fresh(Repr)
    {
      link, this.final, next, links := None, final, null, [];
      started, finished, result, runs := false, false, NIL, 0;
      Repr := {this};
    }

    constructor Step(link: Link, next: WaterfallStep)
      requires next.Valid() && next.Untouched() && Terminates(link.listener)
      ensures Valid() && Untouched() && links == [link] + next.links && final == next.final
      ensures fresh(Repr - next.Repr)
    {
      this.link, this.final, this.next := Some(link), next.final, next;
      links := [link] + next.links;
      started, finished, result, runs := false, false, NIL, 0;
      Repr := {this} + next.Repr;
    }

    /** The first call runs the step; every later one returns what it settled with. */
    method CallStep(value: Value) returns (r: Value)
      requires Valid() && (Untouched() || (finished && RanOnce()))
      modifies Repr
      ensures finished && result == r && RanOnce()
      ensures old(finished) ==> r == old(result) && runs == old(runs)
      ensures !old(finished) ==> r == Composed(links, final)(value)
      decreases Repr, 1
    {
      if finished { return result; }
      started := true;
      r := RunStep(value);
      result := r;
      finished := true;
    }

    method RunStep(value: Value) returns (r: Value)
      requires Valid() && runs == 0 && !finished && (next != null ==> next.Untouched())
      modifies Repr
      ensures RanOnce() && r == Composed(links, final)(value)
      decreases Repr, 0
    {
      if link.None? {
        // runFinal
        if final.None? { return NIL; }
        runs := runs + 1;
        r := Settle(final, value);
      } else {
        assert links[0] == link.value && links[1..] == next.links;
        assert Terminates(links[0].listener);
        next.UntouchedOnce();
        if !link.value.claimed {
          r := next.CallStep(value);
          return;
        }
        // invokeListener
        runs := runs + 1;
        ghost var meaning := Composed(next.links, next.final);
        var act := link.value.listener.act;
        var h: seq<Value> := [];
        while act(value, h).Call?
          invariant runs == 1 && next.RanOnce()
          invariant h == [] ==> next.Untouched()
          invariant h != [] ==> next.finished && next.result == h[0]
          invariant Rest(link.value.listener, value, meaning, []) == Rest(link.value.listener, value, meaning, h)
          decreases link.value.listener.limit - |h|
        {
          var got := next.CallStep(act(value, h).arg);
          h := h + [got];
        }
        var last := act(value, h);
        if last.Return? { return last.v; }
        // the panic is reported, and the chain goes on
        r := next.CallStep(value);
      }
    }
  }

  /** `waterfallWith` on the selected listeners. */
  method Waterfall(links: seq<Link>, final: Option<Value -> Outcome>, payload: Value) returns (r: Value,
      ghost chain: WaterfallStep)
    requires AllTerminate(links)
    ensures r == Composed(links, final)(payload)
    ensures (forall i :: 0 <= i < |links| ==> HandsOn(links[i])) ==> FinalSays(final, payload, r)
    ensures forall ms :: MapsAll(links, ms) ==> Yields(final, ms, payload, r)
    ensures fresh(chain) && chain.Valid() && chain.links == links && chain.RanOnce()
  {
    var tail := new WaterfallStep.Tail(final);
    var i := |links|;
    while i > 0
      invariant 0 <= i <= |links|
      invariant tail.Valid() && tail.Untouched() && fresh(tail.Repr)
      invariant tail.links == links[i..] && tail.final == final
    {
      i := i - 1;
      assert links[i..] == [links[i]] + links[i + 1..];
      tail := new WaterfallStep.Step(links[i], tail);
    }
    assert links[0..] == links;
    r := tail.CallStep(payload);
    chain := tail;
    forall ms | MapsAll(links, ms) ensures Yields(final, ms, payload, r) {
      var x := ChainMaps(links, final, ms, payload);
      assert r == Outward(ms, x);
    }
    if forall i :: 0 <= i < |links| ==> HandsOn(links[i]) {
      var same := HandsOnMaps(links);
      var x := ChainMaps(links, final, same, payload);
    }
  }
}
