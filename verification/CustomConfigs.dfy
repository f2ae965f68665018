// The registry of custom configuration targets (context.go) and how the targets are
// filled from the configuration source (config/config.go).
module CustomConfigs {
  import opened Wrappers
  import opened Text

  // What a Proto message holds; its structure is of no concern here.
  type Contents = string

  // A registered Proto message, filled in place.
  class Message {
    const typeName: string
    var contents: Contents

    constructor (typeName: string, contents: Contents)
      ensures this.typeName == typeName && this.contents == contents
    {
      this.typeName := typeName;
      this.contents := contents;
    }
  }

  // ----- a deterministic order for a map ---------------------------------------------

  // Strictly increasing, so each key once.
  predicate Increasing(keys: seq<string>) {
    forall i, j :: 0 <= i < j < |keys| ==> Less(keys[i], keys[j])
  }

  function Elements<T>(s: seq<T>): set<T> {
    set x | x in s
  }

  /** A set of keys has one strictly increasing sequence only. */
  lemma {:induction false} IncreasingIsUnique(a: seq<string>, b: seq<string>)
    requires Increasing(a) && Increasing(b) && Elements(a) == Elements(b)
    ensures a == b
  {
    assert a == [] || a[0] in Elements(a);
    assert b == [] || b[0] in Elements(b);
    if a != [] && b != [] {
      HeadIsLeast(a, b[0]);
      HeadIsLeast(b, a[0]);
      LessIsTotal(a[0], b[0]);
      TailElements(a);
      TailElements(b);
      IncreasingIsUnique(a[1..], b[1..]);
      assert a == [a[0]] + a[1..] && b == [b[0]] + b[1..];
    }
  }

  lemma HeadIsLeast(s: seq<string>, x: string)
    requires Increasing(s) && x in Elements(s)
    ensures s[0] == x || Less(s[0], x)
  {
  }

  lemma TailElements(s: seq<string>)
    requires Increasing(s) && s != []
    ensures Elements(s[1..]) == Elements(s) - {s[0]}
  {
    forall i | 1 <= i < |s| ensures s[i] != s[0] {
      LessIsTotal(s[0], s[i]);
    }
    forall x | x in Elements(s) - {s[0]} ensures x in Elements(s[1..]) {
      var i :| 0 <= i < |s| && s[i] == x;
      assert s[1..][i - 1] == x;
    }
  }

  // sort.Strings on distinct keys
  method SortStrings(keys: seq<string>) returns (sorted: seq<string>)
    requires forall i, j :: 0 <= i < j < |keys| ==> keys[i] != keys[j]
    ensures Increasing(sorted) && Elements(sorted) == Elements(keys)
  {
    sorted := [];
    for i := 0 to |keys|
      invariant Increasing(sorted) && Elements(sorted) == Elements(keys[..i])
    {
      var at := Position(sorted, keys[i]);
      InsertKeepsOrder(sorted, at, keys[i]);
      assert keys[..i + 1] == keys[..i] + [keys[i]];
      sorted := sorted[..at] + [keys[i]] + sorted[at..];
    }
    assert keys[..|keys|] == keys;
  }

  // Where a new key belongs in a sorted sequence.
  method Position(sorted: seq<string>, key: string) returns (at: nat)
    requires Increasing(sorted) && key !in Elements(sorted)
    ensures at <= |sorted|
    ensures forall i :: 0 <= i < at ==> Less(sorted[i], key)
    ensures forall i :: at <= i < |sorted| ==> Less(key, sorted[i])
  {
    at := 0;
    while at < |sorted| && Less(sorted[at], key)
      invariant at <= |sorted|
      invariant forall i :: 0 <= i < at ==> Less(sorted[i], key)
    {
      at := at + 1;
    }
    forall i | at <= i < |sorted| ensures Less(key, sorted[i]) {
      assert sorted[at] in Elements(sorted);
      LessIsTotal(key, sorted[at]);
      if i > at {
        LessIsTransitive(key, sorted[at], sorted[i]);
      }
    }
  }

  lemma InsertKeepsOrder(sorted: seq<string>, at: nat, key: string)
    requires Increasing(sorted) && at <= |sorted|
    requires forall i :: 0 <= i < at ==> Less(sorted[i], key)
    requires forall i :: at <= i < |sorted| ==> Less(key, sorted[i])
    ensures Increasing(sorted[..at] + [key] + sorted[at..])
    ensures Elements(sorted[..at] + [key] + sorted[at..]) == Elements(sorted) + {key}
  {
    var inserted := sorted[..at] + [key] + sorted[at..];
    assert forall i :: 0 <= i < |inserted| ==>
      inserted[i] == if i < at then sorted[i] else if i == at then key else sorted[i - 1];
    forall x | x in Elements(sorted) ensures x in Elements(inserted) {
      var i :| 0 <= i < |sorted| && sorted[i] == x;
      assert inserted[if i < at then i else i + 1] == x;
    }
    assert inserted[at] == key;
  }

  // The one increasing sequence of a finite set of keys.
  ghost predicate IsSorted(keys: seq<string>, of: set<string>) {
    Increasing(keys) && Elements(keys) == of
  }

  // The targets of a registry in the order of their keys.
  ghost predicate IsTargets(registry: map<string, Message>, targets: seq<Message>) {
    exists keys :: IsSorted(keys, registry.Keys) && targets == InOrder(registry, keys)
  }

  function InOrder(registry: map<string, Message>, keys: seq<string>): seq<Message>
    requires Elements(keys) <= registry.Keys
  {
    seq(|keys|, i requires 0 <= i < |keys| => assert keys[i] in Elements(keys); registry[keys[i]])
  }

  /** The order of the targets is a matter of the registry alone, whatever order its map is
      iterated in. */
  lemma TargetsAreDetermined(registry: map<string, Message>, a: seq<Message>, b: seq<Message>)
    requires IsTargets(registry, a) && IsTargets(registry, b)
    ensures a == b
  {
    var ka :| IsSorted(ka, registry.Keys) && a == InOrder(registry, ka);
    var kb :| IsSorted(kb, registry.Keys) && b == InOrder(registry, kb);
    IncreasingIsUnique(ka, kb);
  }

  /** What the order of the targets is: that of their keys, each key of the registry once. */
  lemma TargetsByKeys(registry: map<string, Message>, targets: seq<Message>) returns (keys: seq<string>)
    requires IsTargets(registry, targets)
    ensures |keys| == |targets| && forall i, j :: 0 <= i < j < |keys| ==> Less(keys[i], keys[j])
    ensures forall key :: key in keys <==> key in registry
    ensures forall i :: 0 <= i < |keys| ==> keys[i] in registry && targets[i] == registry[keys[i]]
  {
    keys :| IsSorted(keys, registry.Keys) && targets == InOrder(registry, keys);
    assert forall key :: key in keys <==> key in Elements(keys);
  }

  // ----- scanning -----------------------------------------------------------------------

  // Config.Scan for loaded sources: what a target holds after it, and whether it succeeded.
  // A scan that fails may leave anything in its target.
  datatype Scan = Scan(contents: Contents, ok: bool)
  type Scanner = (string, Contents) -> Scan

  // Contents of all targets after scanning them in order up to the first error.
  ghost function Scanned(scan: Scanner, targets: seq<Message>, before: map<Message, Contents>)
    : (map<Message, Contents>, bool)
    requires Elements(targets) <= before.Keys
  {
    if targets == [] then (before, true)
    else
      assert targets[0] in Elements(targets);
      assert Elements(targets[1..]) <= Elements(targets);
      var scanned := scan(targets[0].typeName, before[targets[0]]);
      var next := before[targets[0] := scanned.contents];
      if scanned.ok then Scanned(scan, targets[1..], next) else (next, false)
  }

  ghost function ContentsOf(targets: set<Message>): map<Message, Contents>
    reads targets
  {
    map m | m in targets :: m.contents
  }

  // scanConfigs
  method ScanConfigs(scan: Scanner, targets: seq<Message>) returns (ok: bool)
    modifies Elements(targets)
    ensures (ContentsOf(Elements(targets)), ok) == Scanned(scan, targets, old(ContentsOf(Elements(targets))))
  {
    ghost var all := Elements(targets);
    ghost var start := ContentsOf(all);
    for i := 0 to |targets|
      invariant Elements(targets[i..]) <= all
      invariant Scanned(scan, targets[i..], ContentsOf(all)) == Scanned(scan, targets, start)
    {
      assert targets[i..][0] == targets[i] && targets[i..][1..] == targets[i + 1..];
      assert targets[i] in all;
      ghost var before := ContentsOf(all);
      var scanned := scan(targets[i].typeName, targets[i].contents);
      targets[i].contents := scanned.contents;
      assert ContentsOf(all) == before[targets[i] := scanned.contents];
      if !scanned.ok {
        return false;
      }
    }
    ok := true;
  }

  // One message scanned so many times over, each time from what it held then.
  function Rescanned(scan: Scanner, typeName: string, contents: Contents, times: nat): Option<Contents>
    decreases times
  {
    if times == 0 then Some(contents)
    else
      var scanned := scan(typeName, contents);
      if scanned.ok then Rescanned(scan, typeName, scanned.contents, times - 1) else None
  }

  /** No scan leaves a message alone, one scan is that of its type and contents, and later ones
      go on from what the earlier ones left. */
  lemma {:induction false} RescannedByScans(scan: Scanner, typeName: string, contents: Contents, some: nat, more: nat)
    ensures Rescanned(scan, typeName, contents, 0) == Some(contents)
    ensures Rescanned(scan, typeName, contents, 1)
         == if scan(typeName, contents).ok then Some(scan(typeName, contents).contents) else None
    ensures Rescanned(scan, typeName, contents, some + more)
         == match Rescanned(scan, typeName, contents, some)
            case None => None
            case Some(next) => Rescanned(scan, typeName, next, more)
    decreases some
  {
    if some > 0 && scan(typeName, contents).ok {
      RescannedByScans(scan, typeName, scan(typeName, contents).contents, some - 1, more);
    }
  }

  // Every message has been scanned as often as it is among the targets before k.
  ghost predicate ScannedUpTo(
    scan: Scanner, targets: seq<Message>, k: nat, before: map<Message, Contents>, after: map<Message, Contents>)
    requires k <= |targets|
  {
    && after.Keys == before.Keys
    && forall m :: m in before ==>
         Rescanned(scan, m.typeName, before[m], multiset(targets[..k])[m]) == Some(after[m])
  }

  /** Targets disturb no others: there is one place k up to which every target is filled from
      its own contents, a message that is registered under several keys as often as it
      occurs. The scan at k, if any, fails; it may have changed its own target, and nothing
      but that. */
  lemma {:induction false} ScanFillsUpToTheFirstError(
    scan: Scanner, targets: seq<Message>, before: map<Message, Contents>)
    returns (k: nat, filled: map<Message, Contents>)
    requires Elements(targets) <= before.Keys
    ensures k <= |targets| && ScannedUpTo(scan, targets, k, before, filled)
    ensures k == |targets| ==> Scanned(scan, targets, before) == (filled, true)
    ensures k < |targets| ==>
              && targets[k] in filled
              && var failed := scan(targets[k].typeName, filled[targets[k]]);
                 !failed.ok && Scanned(scan, targets, before) == (filled[targets[k] := failed.contents], false)
    decreases targets
  {
    k, filled := 0, before;
    if targets != [] {
      var t := targets[0];
      assert t in Elements(targets) && Elements(targets[1..]) <= Elements(targets);
      var first := scan(t.typeName, before[t]);
      if first.ok {
        var j;
        j, filled := ScanFillsUpToTheFirstError(scan, targets[1..], before[t := first.contents]);
        k := j + 1;
        ScanOneMore(scan, targets, j, before, first.contents, filled);
      }
    }
  }

  lemma ScanOneMore(
    scan: Scanner, targets: seq<Message>, j: nat, before: map<Message, Contents>, contents: Contents,
    after: map<Message, Contents>)
    requires j < |targets| && targets[0] in before
    requires scan(targets[0].typeName, before[targets[0]]) == Scan(contents, true)
    requires ScannedUpTo(scan, targets[1..], j, before[targets[0] := contents], after)
    ensures ScannedUpTo(scan, targets, j + 1, before, after)
  {
    assert targets[..j + 1] == [targets[0]] + targets[1..][..j];
    forall m | m in before
      ensures Rescanned(scan, m.typeName, before[m], multiset(targets[..j + 1])[m]) == Some(after[m])
    {
      assert multiset(targets[..j + 1])[m] == (if m == targets[0] then 1 else 0) + multiset(targets[1..][..j])[m];
    }
  }

  lemma {:induction false} ScanKeepsOthers(
    scan: Scanner, targets: seq<Message>, before: map<Message, Contents>, m: Message)
    requires Elements(targets) <= before.Keys && m in before && m !in Elements(targets)
    ensures Scanned(scan, targets, before).0.Keys == before.Keys
    ensures Scanned(scan, targets, before).0[m] == before[m]
    decreases targets
  {
    if targets != [] {
      assert targets[0] in Elements(targets);
      assert Elements(targets[1..]) <= Elements(targets);
      var scanned := scan(targets[0].typeName, before[targets[0]]);
      if scanned.ok {
        ScanKeepsOthers(scan, targets[1..], before[targets[0] := scanned.contents], m);
      }
    }
  }

  function Restrict(m: map<Message, Contents>, to: set<Message>): map<Message, Contents> {
    map x | x in m && x in to :: m[x]
  }

  lemma {:induction false} ScanSeesOnlyItsTargets(
    scan: Scanner, targets: seq<Message>, big: map<Message, Contents>, small: map<Message, Contents>)
    requires Elements(targets) <= small.Keys <= big.Keys && small == Restrict(big, small.Keys)
    ensures Scanned(scan, targets, small).1 == Scanned(scan, targets, big).1
    ensures Scanned(scan, targets, small).0 == Restrict(Scanned(scan, targets, big).0, small.Keys)
    decreases targets
  {
    if targets != [] {
      var t := targets[0];
      assert t in Elements(targets) && Elements(targets[1..]) <= Elements(targets);
      var scanned := scan(t.typeName, small[t]);
      var smaller := small[t := scanned.contents];
      assert smaller.Keys == small.Keys;
      assert smaller == Restrict(big[t := scanned.contents], smaller.Keys);
      if scanned.ok {
        ScanSeesOnlyItsTargets(scan, targets[1..], big[t := scanned.contents], smaller);
      }
    }
  }

  const BOOTSTRAP := "conf.v1.Bootstrap"

  // Scanning a bootstrap message and then the custom targets, as two steps.
  lemma BootstrapIsScannedFirst(scan: Scanner, b: Message, customs: seq<Message>, before: map<Message, Contents>)
    requires b.typeName == BOOTSTRAP && b !in Elements(customs)
    requires before.Keys == Elements([b] + customs) && before[b] == ""
    ensures Elements([b] + customs) == {b} + Elements(customs)
    ensures var (after, ok) := Scanned(scan, [b] + customs, before);
            && after.Keys == before.Keys
            && after[b] == scan(BOOTSTRAP, "").contents
            && (!scan(BOOTSTRAP, "").ok ==>
                  !ok && Restrict(after, Elements(customs)) == Restrict(before, Elements(customs)))
            && (scan(BOOTSTRAP, "").ok ==>
                  (Restrict(after, Elements(customs)), ok)
                  == Scanned(scan, customs, Restrict(before, Elements(customs))))
  {
    var targets := [b] + customs;
    assert targets[0] == b && targets[1..] == customs;
    assert Elements(targets) == {b} + Elements(customs) by {
      assert forall x :: x in targets <==> x == b || x in customs;
    }
    var next := before[b := scan(BOOTSTRAP, "").contents];
    assert Restrict(next, Elements(customs)) == Restrict(before, Elements(customs));
    if scan(BOOTSTRAP, "").ok {
      ScanSeesOnlyItsTargets(scan, customs, next, Restrict(next, Elements(customs)));
      ScanKeepsOthers(scan, customs, next, b);
    }
  }

  lemma ContentsOfSubset(all: set<Message>, some: set<Message>)
    requires some <= all
    ensures ContentsOf(some) == Restrict(ContentsOf(all), some)
  {
  }

  /** LoadBootstrapConfig: a fresh bootstrap message is scanned first, then the custom
      targets. An error leaves those after it as they were and yields no config. */
  method LoadBootstrapConfig(loads: bool, scan: Scanner, customConfigs: seq<Message>) returns (loaded: Option<Message>)
    modifies Elements(customConfigs)
    ensures !loads || !scan(BOOTSTRAP, "").ok ==>
              loaded.None? && ContentsOf(Elements(customConfigs)) == old(ContentsOf(Elements(customConfigs)))
    ensures loads && scan(BOOTSTRAP, "").ok ==>
              (ContentsOf(Elements(customConfigs)), loaded.Some?)
              == Scanned(scan, customConfigs, old(ContentsOf(Elements(customConfigs))))
    ensures loaded.Some? ==> fresh(loaded.value) && scan(BOOTSTRAP, "") == Scan(loaded.value.contents, true)
  {
    if !loads {
      return None;
    }
    var bootstrapConfig := new Message(BOOTSTRAP, "");
    var targets := [bootstrapConfig] + customConfigs;
    BootstrapIsScannedFirst(scan, bootstrapConfig, customConfigs, ContentsOf(Elements(targets)));
    ContentsOfSubset(Elements(targets), Elements(customConfigs));
    var ok := ScanConfigs(scan, targets);
    ContentsOfSubset(Elements(targets), Elements(customConfigs));
    assert bootstrapConfig.contents == ContentsOf(Elements(targets))[bootstrapConfig];
    loaded := if ok then Some(bootstrapConfig) else None;
  }
}
