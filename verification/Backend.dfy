/** Which platform backends are registered, in what order they are offered, and which one is selected. */
module Backend {
  import opened Core

  datatype Descriptor = Descriptor(name: string, displayName: string, order: nat, hasCheck: bool, hasCreate: bool)

  datatype Requirements = Requirements(screens: bool, capture: bool, injection: bool)

  datatype Check = Check(available: bool, screens: bool, capture: bool, injection: bool)

  /** What probing a backend shows: its check (unavailable if it throws), and whether creating it works. */
  datatype Probe = Probe(check: Check, creates: bool)

  predicate Supports(c: Check, r: Requirements) {
    c.available && (r.screens ==> c.screens) && (r.capture ==> c.capture) && (r.injection ==> c.injection)
  }

  predicate Complete(d: Descriptor) {
    d.name != "" && d.displayName != "" && d.hasCheck && d.hasCreate
  }

  // ----- The order of the listing -----

  /** Character by character; a prefix comes first. */
  predicate NameLess(a: string, b: string) {
    if b == "" then false
    else if a == "" then true
    else if a[0] == b[0] then NameLess(a[1..], b[1..])
    else a[0] < b[0]
  }

  /** The names agree up to k, where the first ends, or has the smaller character. */
  predicate LessAt(a: string, b: string, k: nat) {
    && k <= |a| && k < |b| && a[..k] == b[..k]
    && (k == |a| || a[k] < b[k])
  }

  lemma LessAtAgrees(a: string, b: string, k: nat)
    requires LessAt(a, b, k)
    ensures 0 < k ==> a[0] == b[0]
  {
    if 0 < k {
      assert a[..k][0] == b[..k][0];
    }
  }

  /** It is the dictionary order. */
  lemma {:induction false} NameLessIsLexicographic(a: string, b: string)
    ensures NameLess(a, b) <==> exists k: nat :: LessAt(a, b, k)
  {
    if a == "" && b != "" {
      assert LessAt(a, b, 0);
    } else if a != "" && b != "" && a[0] != b[0] {
      assert NameLess(a, b) ==> LessAt(a, b, 0);
      forall k: nat | LessAt(a, b, k) ensures k == 0 {
        LessAtAgrees(a, b, k);
      }
    } else if a != "" && b != "" {
      NameLessIsLexicographic(a[1..], b[1..]);
      if k: nat :| LessAt(a[1..], b[1..], k) {
        assert a[..k + 1] == [a[0]] + a[1..][..k] && b[..k + 1] == [b[0]] + b[1..][..k];
        assert LessAt(a, b, k + 1);
      }
      forall k: nat | LessAt(a, b, k) ensures 0 < k && LessAt(a[1..], b[1..], k - 1) {
        assert a[1..][..k - 1] == a[..k][1..] && b[1..][..k - 1] == b[..k][1..];
      }
    }
  }

  predicate Before(a: Descriptor, b: Descriptor) {
    a.order < b.order || (a.order == b.order && NameLess(a.name, b.name))
  }

  /** By order first, then by name. */
  lemma BeforeMeans(a: Descriptor, b: Descriptor)
    ensures Before(a, b) <==>
              a.order < b.order || (a.order == b.order && exists k: nat :: LessAt(a.name, b.name, k))
  {
    NameLessIsLexicographic(a.name, b.name);
  }

  lemma {:induction false} NameLessTotal(a: string, b: string)
    ensures a == b || NameLess(a, b) || NameLess(b, a)
    ensures !(NameLess(a, b) && NameLess(b, a)) && !NameLess(a, a)
  {
    if a != "" && b != "" {
      NameLessTotal(a[1..], b[1..]);
      assert a == [a[0]] + a[1..] && b == [b[0]] + b[1..];
    }
    if a != "" {
      NameLessTotal(a[1..], a[1..]);
    }
  }

  lemma {:induction false} NameLessTransitive(a: string, b: string, c: string)
    requires NameLess(a, b) && NameLess(b, c)
    ensures NameLess(a, c)
  {
    if a != "" && a[0] == b[0] == c[0] {
      NameLessTransitive(a[1..], b[1..], c[1..]);
    }
  }

  lemma BeforeIsOrder(a: Descriptor, b: Descriptor, c: Descriptor)
    ensures a.name != b.name ==> Before(a, b) || Before(b, a)
    ensures !(Before(a, b) && Before(b, a))
    ensures Before(a, b) && Before(b, c) ==> Before(a, c)
  {
    NameLessTotal(a.name, b.name);
    if NameLess(a.name, b.name) && NameLess(b.name, c.name) {
      NameLessTransitive(a.name, b.name, c.name);
    }
  }

  ghost predicate NamesDistinct(ds: seq<Descriptor>) {
    forall i, j :: 0 <= i < j < |ds| ==> ds[i].name != ds[j].name
  }

  ghost predicate Ascending(ds: seq<Descriptor>) {
    forall i, j :: 0 <= i < j < |ds| ==> Before(ds[i], ds[j])
  }

  function Insert(d: Descriptor, ds: seq<Descriptor>): (r: seq<Descriptor>)
    ensures forall x :: x in r <==> x == d || x in ds
  {
    if ds == [] then [d]
    else
      assert ds == [ds[0]] + ds[1..];
      if Before(d, ds[0]) then [d] + ds else [ds[0]] + Insert(d, ds[1..])
  }

  /** The sort the listing uses. */
  function Sort(ds: seq<Descriptor>): (r: seq<Descriptor>)
    ensures forall x :: x in r <==> x in ds
  {
    if ds == [] then []
    else
      assert ds == [ds[0]] + ds[1..];
      Insert(ds[0], Sort(ds[1..]))
  }

  lemma {:induction false} InsertAscending(d: Descriptor, ds: seq<Descriptor>)
    requires Ascending(ds) && forall x :: x in ds ==> x.name != d.name
    ensures Ascending(Insert(d, ds))
  {
    if ds != [] {
      if Before(d, ds[0]) {
        forall i | 0 <= i < |ds| ensures Before(d, ds[i]) {
          BeforeIsOrder(d, ds[0], ds[i]);
        }
      } else {
        BeforeIsOrder(d, ds[0], d);
        assert Ascending(ds[1..]);
        InsertAscending(d, ds[1..]);
        var tail := Insert(d, ds[1..]);
        forall i | 0 <= i < |tail| ensures Before(ds[0], tail[i]) {
          assert tail[i] in tail;
        }
      }
    }
  }

  lemma {:induction false} SortAscending(ds: seq<Descriptor>)
    requires NamesDistinct(ds)
    ensures Ascending(Sort(ds))
  {
    if ds != [] {
      SortAscending(ds[1..]);
      forall x | x in Sort(ds[1..]) ensures x.name != ds[0].name {
        var i :| 0 <= i < |ds[1..]| && ds[1..][i] == x;
      }
      InsertAscending(ds[0], Sort(ds[1..]));
    }
  }

  /** Two ascending listings of the same descriptors are the same listing. */
  lemma {:induction false} AscendingUnique(a: seq<Descriptor>, b: seq<Descriptor>)
    requires Ascending(a) && Ascending(b) && forall x :: x in a <==> x in b
    ensures a == b
  {
    assert (a != [] ==> a[0] in a) && (b != [] ==> b[0] in b);
    if a != [] && b != [] {
      SameFirst(a, b);
      assert a == [a[0]] + a[1..] && b == [b[0]] + b[1..];
      RestLacksFirst(a);
      RestLacksFirst(b);
      forall x ensures x in a[1..] <==> x in b[1..] {
        assert x in a <==> x == a[0] || x in a[1..];
        assert x in b <==> x == b[0] || x in b[1..];
      }
      AscendingUnique(a[1..], b[1..]);
    }
  }

  lemma RestLacksFirst(a: seq<Descriptor>)
    requires a != [] && Ascending(a)
    ensures a[0] !in a[1..] && Ascending(a[1..])
  {
    forall i | 1 <= i < |a| ensures a[i] != a[0] {
      BeforeIsOrder(a[0], a[i], a[0]);
    }
  }

  lemma SameFirst(a: seq<Descriptor>, b: seq<Descriptor>)
    requires a != [] && b != [] && Ascending(a) && Ascending(b) && forall x :: x in a <==> x in b
    ensures a[0] == b[0]
  {
    assert a[0] in b && b[0] in a;
    BeforeIsOrder(a[0], b[0], a[0]);
  }

  // ----- Registration and selection -----

  /** Incomplete descriptors and repeated names are ignored. */
  function Registered(ds: seq<Descriptor>, d: Descriptor): seq<Descriptor> {
    if Complete(d) && (forall x :: x in ds ==> x.name != d.name) then ds + [d] else ds
  }

  datatype SelectError = NoSuchDevice | NotSupported

  datatype Selection = Selected(descriptor: Descriptor) | Refused(error: SelectError)

  predicate Suitable(d: Descriptor, requirements: Requirements, probe: string -> Probe) {
    Supports(probe(d.name).check, requirements) && probe(d.name).creates
  }

  /** A backend is suitable if its check says it is available and can do all that is required, and creating it works. */
  lemma SuitableWhen(d: Descriptor, requirements: Requirements, probe: string -> Probe)
    ensures var p := probe(d.name);
            !Suitable(d, requirements, probe) <==>
              (|| !p.creates || !p.check.available
               || (requirements.screens && !p.check.screens)
               || (requirements.capture && !p.check.capture)
               || (requirements.injection && !p.check.injection))
  {
  }

  /** The least suitable descriptor of those registered. */
  ghost predicate LeastSuitable(ds: seq<Descriptor>, d: Descriptor, requirements: Requirements, probe: string -> Probe) {
    && d in ds && Suitable(d, requirements, probe)
    && forall x :: x in ds && Suitable(x, requirements, probe) && x != d ==> Before(d, x)
  }

  class BackendRegistry {
    var descriptors: seq<Descriptor>

    ghost predicate Valid()
      reads this
    {
      NamesDistinct(descriptors) && forall d :: d in descriptors ==> Complete(d)
    }

    constructor ()
      ensures Valid() && descriptors == []
    {
      descriptors := [];
    }

    method Register(d: Descriptor)
      requires Valid()
      modifies this
      ensures Valid()
      ensures descriptors == Registered(old(descriptors), d)
      // taken exactly if it is complete and its name is new
      ensures descriptors == old(descriptors) + [d] <==>
              (&& d.name != "" && d.displayName != "" && d.hasCheck && d.hasCreate
               && forall x :: x in old(descriptors) ==> x.name != d.name)
      ensures descriptors == old(descriptors) + [d] || descriptors == old(descriptors)
    {
      if d.name == "" || d.displayName == "" || !d.hasCheck || !d.hasCreate {
        return;
      }
      for i := 0 to |descriptors|
        invariant forall j :: 0 <= j < i ==> descriptors[j].name != d.name
      {
        if descriptors[i].name == d.name {
          return;
        }
      }
      descriptors := descriptors + [d];
    }

    method RegisteredBackends() returns (listing: seq<Descriptor>)
      requires Valid()
      ensures Ascending(listing) && forall x :: x in listing <==> x in descriptors
      // by order first, then by name
      ensures forall i, j :: 0 <= i < j < |listing| ==>
                || listing[i].order < listing[j].order
                || (listing[i].order == listing[j].order && exists k: nat :: LessAt(listing[i].name, listing[j].name, k))
    {
      listing := Sort(descriptors);
      SortAscending(descriptors);
      forall i, j | 0 <= i < j < |listing|
        ensures || listing[i].order < listing[j].order
                || (listing[i].order == listing[j].order && exists k: nat :: LessAt(listing[i].name, listing[j].name, k))
      {
        assert Before(listing[i], listing[j]);
        BeforeMeans(listing[i], listing[j]);
      }
    }

    method FindBackend(name: string) returns (found: Option<Descriptor>)
      requires Valid()
      ensures found.Some? ==> found.value in descriptors && found.value.name == name
      ensures found.None? ==> forall x :: x in descriptors ==> x.name != name
    {
      var listing := RegisteredBackends();
      for i := 0 to |listing|
        invariant forall j :: 0 <= j < i ==> listing[j].name != name
      {
        if listing[i].name == name {
          return Some(listing[i]);
        }
      }
      return None;
    }

    /**
     * Left to choose, it takes the least suitable backend; asked for one by name, that
     * one or none.
     */
    method SelectBackend(name: string, requirements: Requirements, probe: string -> Probe) returns (selection: Selection)
      requires Valid()
      ensures name == "" || name == "auto" ==>
                match selection
                case Selected(d) => LeastSuitable(descriptors, d, requirements, probe)
                case Refused(error) =>
                  error == NotSupported && forall x :: x in descriptors ==> !Suitable(x, requirements, probe)
      ensures name != "" && name != "auto" ==>
                match selection
                case Selected(d) => d in descriptors && d.name == name && Suitable(d, requirements, probe)
                case Refused(NoSuchDevice) => forall x :: x in descriptors ==> x.name != name
                case Refused(NotSupported) =>
                  exists x :: x in descriptors && x.name == name && !Suitable(x, requirements, probe)
    {
      var candidates: seq<Descriptor>;
      if name == "" || name == "auto" {
        candidates := RegisteredBackends();
      } else {
        var descriptor := FindBackend(name);
        if descriptor.None? {
          return Refused(NoSuchDevice);
        }
        candidates := [descriptor.value];
      }
      for i := 0 to |candidates|
        invariant forall j :: 0 <= j < i ==> !Suitable(candidates[j], requirements, probe)
      {
        var check := probe(candidates[i].name).check;
        if !Supports(check, requirements) {
          continue;
        }
        if !probe(candidates[i].name).creates {
          continue;
        }
        forall x | x in candidates && Suitable(x, requirements, probe) && x != candidates[i]
          ensures name == "" || name == "auto" ==> Before(candidates[i], x)
        {
          var j :| 0 <= j < |candidates| && candidates[j] == x;
        }
        return Selected(candidates[i]);
      }
      assert candidates != [] ==> candidates[0] in candidates;
      return Refused(NotSupported);
    }
  }

  // ----- The order of registration does not matter -----

  /** The registry after registering descriptors one after the other. */
  function RegisterAll(ds: seq<Descriptor>): seq<Descriptor> {
    if ds == [] then []
    else Registered(RegisterAll(ds[..|ds| - 1]), ds[|ds| - 1])
  }

  /** Complete descriptors with distinct names are all registered. */
  lemma {:induction false} AllRegistered(ds: seq<Descriptor>)
    requires NamesDistinct(ds) && forall d :: d in ds ==> Complete(d)
    ensures RegisterAll(ds) == ds
  {
    hide Complete, RegisterAll;
    if ds == [] {
      OneMore([], ds);
    } else {
      var front, d := ds[..|ds| - 1], ds[|ds| - 1];
      assert forall x :: x in front ==> x in ds;
      AllRegistered(front);
      assert d in ds && ds == front + [d];
      forall x | x in front ensures x.name != d.name {
        var i :| 0 <= i < |front| && front[i] == x;
        assert ds[i] == x;
      }
      OneMore(front, ds);
    }
  }

  lemma OneMore(front: seq<Descriptor>, ds: seq<Descriptor>)
    requires ds == [] || (front == ds[..|ds| - 1] && RegisterAll(front) == front)
    requires ds != [] ==> Complete(ds[|ds| - 1]) && forall x :: x in front ==> x.name != ds[|ds| - 1].name
    ensures RegisterAll(ds) == ds
  {
    hide Complete, Registered;
    if ds != [] {
      FreshIsRegistered(front, ds[|ds| - 1]);
      assert ds == front + [ds[|ds| - 1]];
    }
  }

  lemma FreshIsRegistered(ds: seq<Descriptor>, d: Descriptor)
    requires Complete(d) && forall x :: x in ds ==> x.name != d.name
    ensures Registered(ds, d) == ds + [d]
  {
  }

  /** Whatever order they registered in, the listing is the same, and with it every selection. */
  lemma RegistrationOrderIrrelevant(ds: seq<Descriptor>, es: seq<Descriptor>)
    requires NamesDistinct(ds) && NamesDistinct(es) && forall d :: d in ds <==> d in es
    requires forall d :: d in ds ==> Complete(d)
    ensures Sort(RegisterAll(ds)) == Sort(RegisterAll(es))
  {
    AllRegistered(ds);
    AllRegistered(es);
    SortAscending(ds);
    SortAscending(es);
    AscendingUnique(Sort(ds), Sort(es));
  }

  /** There is only one least suitable backend. */
  lemma SelectionUnique(ds: seq<Descriptor>, a: Descriptor, b: Descriptor,
                        requirements: Requirements, probe: string -> Probe)
    requires LeastSuitable(ds, a, requirements, probe) && LeastSuitable(ds, b, requirements, probe)
    ensures a == b
  {
    BeforeIsOrder(a, b, a);
  }
}
