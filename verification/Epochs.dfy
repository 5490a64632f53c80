/** The dependency epoch as fiber.go writes it: one string of provider UIDs and binding sequences in name
    order, or a sentinel. Comparing the strings is comparing the values the reactive core works with. */
module Epochs {
  import opened Options
  import opened Reactive
  import opened ReactiveQuiescence

  /** The epoch of a fiber whose dependencies are not met. */
  const INACTIVE: string := "\0inactive"

  // ----- decimal numbers -----

  function Digit(d: nat): char
    requires d < 10
  {
    "0123456789"[d]
  }

  predicate IsDigit(c: char) {
    '0' <= c <= '9'
  }

  function DigitValue(c: char): nat
    requires IsDigit(c)
  {
    c as nat - '0' as nat
  }

  /** `strconv.Itoa` on a number that is not negative. */
  function Decimal(n: nat): string {
    if n < 10 then [Digit(n)] else Decimal(n / 10) + [Digit(n % 10)]
  }

  function Value(s: string): nat
    requires forall c :: c in s ==> IsDigit(c)
  {
    if s == "" then 0 else Value(s[..|s| - 1]) * 10 + DigitValue(s[|s| - 1])
  }

  lemma {:induction false} DecimalDigits(n: nat)
    ensures Decimal(n) != "" && forall c :: c in Decimal(n) ==> IsDigit(c)
    ensures Value(Decimal(n)) == n
  {
    if n >= 10 {
      DecimalDigits(n / 10);
      var s := Decimal(n);
      assert s[..|s| - 1] == Decimal(n / 10);
    } else {
      assert Decimal(n)[..0] == "";
    }
  }

  lemma DecimalInjective(a: nat, b: nat)
    requires Decimal(a) == Decimal(b)
    ensures a == b
  {
    DecimalDigits(a);
    DecimalDigits(b);
  }

  // ----- reading a number off the front -----

  /** Length of the longest prefix of digits. */
  function Digits(s: string): nat {
    if s != "" && IsDigit(s[0]) then 1 + Digits(s[1..]) else 0
  }

  /** Nothing that could continue a number. */
  predicate Stops(s: string) {
    s == "" || !IsDigit(s[0])
  }

  lemma {:induction false} DigitsOf(s: string, rest: string)
    requires (forall c :: c in s ==> IsDigit(c)) && Stops(rest)
    ensures Digits(s + rest) == |s|
  {
    if s == "" {
      assert s + rest == rest;
    } else {
      assert (s + rest)[1..] == s[1..] + rest;
      DigitsOf(s[1..], rest);
    }
  }

  /** A number is read back unambiguously, whatever stopping text follows. */
  lemma NumberReads(a: nat, resta: string, b: nat, restb: string)
    requires Decimal(a) + resta == Decimal(b) + restb && Stops(resta) && Stops(restb)
    ensures a == b && resta == restb
  {
    DecimalDigits(a);
    DecimalDigits(b);
    DigitsOf(Decimal(a), resta);
    DigitsOf(Decimal(b), restb);
    var k, s := |Decimal(a)|, Decimal(a) + resta;
    assert s[..k] == Decimal(a) && s[..k] == Decimal(b) && s[k..] == resta && s[k..] == restb;
    DecimalInjective(a, b);
  }

  // ----- epochs -----

  function EncodeKey(key: Key): string {
    ":" + Decimal(key.uid) + "." + Decimal(key.num)
  }

  function Encode(keys: seq<Key>): string {
    if keys == [] then "" else EncodeKey(keys[0]) + Encode(keys[1..])
  }

  lemma EncodeStops(keys: seq<Key>)
    ensures Stops(Encode(keys)) && (keys != [] ==> Encode(keys) != "" && Encode(keys)[0] == ':')
  {}

  lemma KeyReads(a: Key, resta: string, b: Key, restb: string)
    requires EncodeKey(a) + resta == EncodeKey(b) + restb && Stops(resta) && Stops(restb)
    ensures a == b && resta == restb
  {
    var ta, tb := "." + (Decimal(a.num) + resta), "." + (Decimal(b.num) + restb);
    var s := EncodeKey(a) + resta;
    assert s == ":" + (Decimal(a.uid) + ta) == ":" + (Decimal(b.uid) + tb);
    assert s[1..] == Decimal(a.uid) + ta == Decimal(b.uid) + tb;
    NumberReads(a.uid, ta, b.uid, tb);
    assert ta[1..] == Decimal(a.num) + resta && tb[1..] == Decimal(b.num) + restb;
    NumberReads(a.num, resta, b.num, restb);
  }

  lemma {:induction false} EncodeInjective(a: seq<Key>, b: seq<Key>)
    requires Encode(a) == Encode(b)
    ensures a == b
  {
    EncodeStops(a);
    EncodeStops(b);
    if a != [] && b != [] {
      EncodeStops(a[1..]);
      EncodeStops(b[1..]);
      KeyReads(a[0], Encode(a[1..]), b[0], Encode(b[1..]));
      EncodeInjective(a[1..], b[1..]);
      assert a == [a[0]] + a[1..] && b == [b[0]] + b[1..];
    }
  }

  /** The keys of the injected names, in the order `Inject` lists them. */
  function KeyList(names: seq<Name>, keys: map<Name, Key>): (list: seq<Key>)
    requires forall n :: n in names ==> n in keys
    ensures |list| == |names| && forall i :: 0 <= i < |names| ==> list[i] == keys[names[i]]
  {
    if names == [] then [] else [keys[names[0]]] + KeyList(names[1..], keys)
  }

  function EpochString(names: seq<Name>, epoch: Epoch): string
    requires epoch.Gen? ==> forall n :: n in names ==> n in epoch.keys
  {
    match epoch
    case Inactive => INACTIVE
    case Gen(keys) => Encode(KeyList(names, keys))
  }

  /** `names` lists exactly the injected names. */
  ghost predicate Lists(names: seq<Name>, epoch: Epoch) {
    epoch.Gen? ==> forall n :: n in names <==> n in epoch.keys
  }

  /** Epoch strings are equal exactly when every name resolves to the same provider and registration, and
      no satisfied epoch reads as the sentinel. */
  lemma EpochFaithful(names: seq<Name>, a: Epoch, b: Epoch)
    requires Lists(names, a) && Lists(names, b)
    ensures EpochString(names, a) == EpochString(names, b) <==> a == b
  {
    if EpochString(names, a) == EpochString(names, b) {
      if a.Gen? { EncodeStops(KeyList(names, a.keys)); }
      if b.Gen? { EncodeStops(KeyList(names, b.keys)); }
      if a.Gen? && b.Gen? {
        EncodeInjective(KeyList(names, a.keys), KeyList(names, b.keys));
        forall n | n in a.keys ensures n in b.keys && a.keys[n] == b.keys[n] {
          var i :| 0 <= i < |names| && names[i] == n;
          assert KeyList(names, a.keys)[i] == KeyList(names, b.keys)[i];
        }
        assert a.keys == b.keys;
      }
    }
  }

  lemma {:induction false} EncodeAppend(keys: seq<Key>, key: Key)
    ensures Encode(keys + [key]) == Encode(keys) + EncodeKey(key)
  {
    if keys == [] {
      assert [key][1..] == [];
    } else {
      assert (keys + [key])[1..] == keys[1..] + [key];
      EncodeAppend(keys[1..], key);
    }
  }

  lemma {:induction false} KeyListAppend(names: seq<Name>, name: Name, keys: map<Name, Key>, key: Key)
    requires (forall n :: n in names ==> n in keys) && name !in names
    ensures KeyList(names + [name], keys[name := key]) == KeyList(names, keys) + [key]
  {
    var more := names + [name];
    assert |KeyList(more, keys[name := key])| == |KeyList(names, keys) + [key]|;
    forall i | 0 <= i < |more| ensures KeyList(more, keys[name := key])[i] == (KeyList(names, keys) + [key])[i] {
      if i < |names| { assert more[i] == names[i] && names[i] in names; }
    }
  }

  /** One more resolved name appends its key to the epoch. */
  lemma ResolvedMore(c: Core, got: map<Name, nat>, names: seq<Name>, name: Name, e: nat)
    requires (forall n :: n in got ==> got[n] in c.store) && e in c.store
    requires (forall n :: n in names <==> n in got) && name !in names
    ensures Encode(KeyList(names + [name], KeysOf(c, got[name := e]))) ==
      Encode(KeyList(names, KeysOf(c, got))) + EncodeKey(KeyOf(c, e))
  {
    assert KeysOf(c, got[name := e]) == KeysOf(c, got)[name := KeyOf(c, e)];
    KeyListAppend(names, name, KeysOf(c, got), KeyOf(c, e));
    EncodeAppend(KeyList(names, KeysOf(c, got)), KeyOf(c, e));
  }

  /** `resolveInjections` with nothing else running: the bindings and the epoch come from one pass over
      the injected names, and the first name that does not resolve makes the epoch inactive. */
  method ResolveInjections(c: Core, fib: Fiber, names: seq<Name>) returns (bindings: Option<map<Name, nat>>,
      epoch: string)
    requires forall i, j :: 0 <= i < j < |names| ==> names[i] != names[j]
    requires forall n :: n in names <==> n in fib.fixed.inject
    ensures bindings.None? <==> exists n :: Missing(c, fib, n)
    ensures bindings.None? ==> epoch == INACTIVE
    ensures bindings.Some? ==>
      && bindings.value.Keys == fib.fixed.inject && Fresh(c, fib, bindings.value)
      && (forall n :: n in bindings.value ==> bindings.value[n] in c.store)
      && epoch == EpochString(names, Gen(KeysOf(c, bindings.value)))
  {
    hide Encode, EncodeKey, KeyList, Lookup, Fresh, Missing;
    var got: map<Name, nat> := map[];
    epoch := "";
    assert Encode(KeyList(names[..0], KeysOf(c, got))) == "" by { ResolvedNone(c, names); }
    assert Fresh(c, fib, got) by { FreshNone(c, fib); }
    for i := 0 to |names|
      invariant forall n :: n in got <==> n in names[..i]
      invariant Fresh(c, fib, got)
      invariant forall n :: n in got ==> got[n] in c.store
      invariant epoch == Encode(KeyList(names[..i], KeysOf(c, got)))
    {
      var name := names[i];
      var found := Lookup(c, LabelOf(fib, name), name);
      if found.None? {
        assert Missing(c, fib, name) by { MissingNow(c, fib, name); }
        return None, INACTIVE;
      }
      LookupKnown(c, LabelOf(fib, name), name);
      ResolvedMore(c, got, names[..i], name, found.value);
      FreshMore(c, fib, got, name, found.value);
      assert names[..i + 1] == names[..i] + [name];
      epoch := epoch + EncodeKey(KeyOf(c, found.value));
      got := got[name := found.value];
    }
    assert names[..|names|] == names;
    FreshComplete(c, fib, got);
    bindings := Some(got);
  }

  lemma FreshNone(c: Core, fib: Fiber)
    ensures Fresh(c, fib, map[])
  {}

  lemma FreshMore(c: Core, fib: Fiber, got: map<Name, nat>, name: Name, e: nat)
    requires Fresh(c, fib, got) && name in fib.fixed.inject && Lookup(c, LabelOf(fib, name), name) == Some(e)
    ensures Fresh(c, fib, got[name := e])
  {}

  lemma MissingNow(c: Core, fib: Fiber, name: Name)
    requires name in fib.fixed.inject && Lookup(c, LabelOf(fib, name), name).None?
    ensures Missing(c, fib, name)
  {}

  lemma FreshComplete(c: Core, fib: Fiber, got: map<Name, nat>)
    requires Fresh(c, fib, got) && got.Keys == fib.fixed.inject
    ensures forall n :: !Missing(c, fib, n)
  {
    forall n ensures !Missing(c, fib, n) {
      if n in got { assert Current(c, fib, n) == Some(got[n]); }
    }
  }

  lemma ResolvedNone(c: Core, names: seq<Name>)
    ensures Encode(KeyList(names[..0], KeysOf(c, map[]))) == ""
  {}

  lemma LookupKnown(c: Core, at: Label, name: Name)
    requires Lookup(c, at, name).Some?
    ensures Lookup(c, at, name).value in c.store
  {}
}
