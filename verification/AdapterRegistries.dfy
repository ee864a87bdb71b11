/** Per-class adapter registries: a class gets its own on first touch, seeded from the nearest ancestor
    that has one, and shares nothing with anybody from then on.  The synchronous and the asynchronous mixin
    run the same code over an attribute of their own each. */
module AdapterRegistries {
  type Cls = nat

  /** An adapter class with the two attributes its key may come from; an absent one reads as empty. */
  datatype Adapter = Adapter(name: nat, adapterKey: string, objKey: string)

  function KeyOf(a: Adapter): string { if a.adapterKey != "" then a.adapterKey else a.objKey }

  type Adapters = map<string, Adapter>

  /** The registries as they stand: what each class that has one would look up. */
  type Regs = map<Cls, Adapters>

  datatype Op = Touch(c: Cls) | Register(c: Cls, a: Adapter)

  /** The nearest class in the line that has a registry decides; nobody having one, it starts empty. */
  function Inherit(regs: Regs, line: seq<Cls>): Adapters {
    if line == [] then map[]
    else if line[0] in regs then regs[line[0]]
    else Inherit(regs, line[1..])
  }

  function Ancestors(mro: Cls -> seq<Cls>, c: Cls): seq<Cls> {
    if mro(c) == [] then [] else mro(c)[1..]
  }

  function Touched(mro: Cls -> seq<Cls>, regs: Regs, c: Cls): Regs {
    if c in regs then regs else regs[c := Inherit(regs, Ancestors(mro, c))]
  }

  function Registered(mro: Cls -> seq<Cls>, regs: Regs, c: Cls, a: Adapter): Regs {
    var seeded := Touched(mro, regs, c);
    if KeyOf(a) == "" then seeded else seeded[c := seeded[c][KeyOf(a) := a]]
  }

  function Do(mro: Cls -> seq<Cls>, regs: Regs, op: Op): Regs {
    match op
    case Touch(c) => Touched(mro, regs, c)
    case Register(c, a) => Registered(mro, regs, c, a)
  }

  // ---------- The code ----------

  class AdapterRegistry {
    var reg: Adapters

    constructor ()
      ensures reg == map[]
    {
      reg := map[];
    }

    method Register(a: Adapter) returns (ok: bool)
      modifies this
      ensures ok <==> KeyOf(a) != ""
      ensures reg == if ok then old(reg)[KeyOf(a) := a] else old(reg)
    {
      var key := if a.adapterKey != "" then a.adapterKey else a.objKey;
      if key == "" {
        return false;
      }
      reg := reg[key := a];
      return true;
    }
  }

  /** The class attribute holding a registry, over all classes; the method resolution order is fixed. */
  class Classes {
    const mro: Cls -> seq<Cls>
    var own: map<Cls, AdapterRegistry>

    constructor (mro: Cls -> seq<Cls>)
      ensures this.mro == mro && Valid() && View() == map[]
    {
      this.mro, own := mro, map[];
    }

    /** No two classes share a registry object. */
    ghost predicate Valid()
      reads this
    {
      forall c, d :: c in own && d in own && c != d ==> own[c] != own[d]
    }

    function View(): Regs
      reads this, own.Values
    {
      map c | c in own :: own[c].reg
    }

    /** The class's own registry, made from a snapshot of the nearest ancestor's if it has none yet. */
    method Registry(c: Cls) returns (r: AdapterRegistry)
      requires Valid()
      modifies this
      ensures Valid() && c in own && own[c] == r
      ensures View() == Touched(mro, old(View()), c)
      ensures forall d :: d in old(own) ==> d in own && own[d] == old(own)[d]
      ensures own.Values - old(own.Values) <= {r} && (c !in old(own) ==> fresh(r))
    {
      if c !in own {
        r := new AdapterRegistry();
        var line := Ancestors(mro, c);
        var i := 0;
        while i < |line| && line[i] !in own
          invariant 0 <= i <= |line| && fresh(r) && r.reg == map[]
          invariant Inherit(View(), line) == Inherit(View(), line[i..])
        {
          assert line[i..][1..] == line[i + 1..];
          i := i + 1;
        }
        if i < |line| {
          r.reg := own[line[i]].reg;
        }
        assert r.reg == Inherit(old(View()), line);
        own := own[c := r];
      }
      r := own[c];
    }

    method RegisterAdapter(c: Cls, a: Adapter) returns (ok: bool)
      requires Valid()
      modifies this, own.Values
      ensures Valid() && View() == Registered(mro, old(View()), c, a)
      ensures ok <==> KeyOf(a) != ""
    {
      var r := Registry(c);
      ok := r.Register(a);
    }
  }

  // ---------- Whole histories ----------

  function After(mro: Cls -> seq<Cls>, ops: seq<Op>, n: nat): Regs
    requires n <= |ops|
  {
    if n == 0 then map[] else Do(mro, After(mro, ops, n - 1), ops[n - 1])
  }

  /** The adapters registered on the class itself in the first n operations, the last of a key winning. */
  function OwnRegistrations(ops: seq<Op>, c: Cls, n: nat): Adapters
    requires n <= |ops|
  {
    if n == 0 then map[]
    else
      var before := OwnRegistrations(ops, c, n - 1);
      var op := ops[n - 1];
      if op.Register? && op.c == c && KeyOf(op.a) != "" then before[KeyOf(op.a) := op.a] else before
  }

  /** The operation that first touches the class. */
  predicate FirstTouch(ops: seq<Op>, c: Cls, f: nat) {
    f < |ops| && ops[f].c == c && forall i :: 0 <= i < f ==> ops[i].c != c
  }

  lemma {:induction false} UntouchedHasNone(mro: Cls -> seq<Cls>, ops: seq<Op>, c: Cls, n: nat)
    requires n <= |ops| && forall i :: 0 <= i < n ==> ops[i].c != c
    ensures c !in After(mro, ops, n) && OwnRegistrations(ops, c, n) == map[]
  {
    if n > 0 {
      UntouchedHasNone(mro, ops, c, n - 1);
    }
  }

  /** What one operation does to a class that has its registry. */
  lemma SeededStep(mro: Cls -> seq<Cls>, regs: Regs, op: Op, c: Cls)
    requires c in regs
    ensures c in Do(mro, regs, op)
    ensures Do(mro, regs, op)[c]
         == if op.Register? && op.c == c && KeyOf(op.a) != "" then regs[c][KeyOf(op.a) := op.a] else regs[c]
  {}

  /** What a class sees, after any history over any hierarchy: the snapshot of its nearest seeded ancestor
      at the moment it was first touched, overlaid by its own registrations, and nothing else ever. */
  lemma {:induction false} SnapshotPlusOwn(mro: Cls -> seq<Cls>, ops: seq<Op>, c: Cls, f: nat, n: nat)
    requires FirstTouch(ops, c, f) && f < n <= |ops|
    ensures c in After(mro, ops, n)
    ensures After(mro, ops, n)[c]
         == Inherit(After(mro, ops, f), Ancestors(mro, c)) + OwnRegistrations(ops, c, n)
  {
    if n == f + 1 {
      UntouchedHasNone(mro, ops, c, f);
      assert Inherit(After(mro, ops, f), Ancestors(mro, c)) + map[] == Inherit(After(mro, ops, f), Ancestors(mro, c));
    } else {
      hide Inherit, Ancestors, Do, KeyOf;
      SnapshotPlusOwn(mro, ops, c, f, n - 1);
      SeededStep(mro, After(mro, ops, n - 1), ops[n - 1], c);
      if ops[n - 1].Register? {
        PlusUpdate(Inherit(After(mro, ops, f), Ancestors(mro, c)), OwnRegistrations(ops, c, n - 1),
                   KeyOf(ops[n - 1].a), ops[n - 1].a);
      }
    }
  }

  lemma PlusUpdate(seed: Adapters, own: Adapters, key: string, a: Adapter)
    ensures seed + own[key := a] == (seed + own)[key := a]
  {}

  /** A class is seeded exactly by being touched. */
  lemma {:induction false} SeededExactlyWhenTouched(mro: Cls -> seq<Cls>, ops: seq<Op>, c: Cls, n: nat)
    requires n <= |ops|
    ensures c in After(mro, ops, n) <==> exists i :: 0 <= i < n && ops[i].c == c
  {
    if n > 0 {
      SeededExactlyWhenTouched(mro, ops, c, n - 1);
    }
  }

  /** Registrations never leak: operations on other classes leave a seeded class as it was, ancestor,
      descendant or neither. */
  lemma {:induction false} NothingLeaks(mro: Cls -> seq<Cls>, ops: seq<Op>, c: Cls, m: nat, n: nat)
    requires m <= n <= |ops| && c in After(mro, ops, m)
    requires forall i :: m <= i < n ==> ops[i].c != c
    ensures c in After(mro, ops, n) && After(mro, ops, n)[c] == After(mro, ops, m)[c]
  {
    if m < n {
      NothingLeaks(mro, ops, c, m, n - 1);
      SeededStep(mro, After(mro, ops, n - 1), ops[n - 1], c);
      hide Do;
    }
  }
}
