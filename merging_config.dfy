/**
 * The performance merging configuration (src/analysis/config.rs): groups of
 * instruments whose performance is analysed as one. Each master symbol has a set
 * of slave symbols, and the reverse map sends a slave to its master.
 */
module MergingConfig {
  import opened Wrappers

  type Mapping = map<string, set<string>>
  type Reverse = map<string, string>

  ghost predicate SlaveOf(mapping: Mapping, master: string, slave: string)
  {
    master in mapping && slave in mapping[master]
  }

  /** No slave is a master too. */
  ghost predicate NoCycles(mapping: Mapping)
  {
    forall master, slave :: SlaveOf(mapping, master, slave) ==> slave !in mapping
  }

  /** No slave has two masters. */
  ghost predicate NoDuplicates(mapping: Mapping)
  {
    forall m1, m2, slave :: SlaveOf(mapping, m1, slave) && SlaveOf(mapping, m2, slave) ==> m1 == m2
  }

  /** `reverse` sends each slave, and nothing else, to its master. */
  ghost predicate IsInverse(mapping: Mapping, reverse: Reverse)
  {
    (forall slave :: slave in reverse ==> SlaveOf(mapping, reverse[slave], slave))
    && (forall master, slave :: SlaveOf(mapping, master, slave) ==> slave in reverse && reverse[slave] == master)
  }

  ghost predicate Consistent(mapping: Mapping, reverse: Reverse)
  {
    NoCycles(mapping) && NoDuplicates(mapping) && IsInverse(mapping, reverse)
  }

  function CycleError(symbol: string): string
  {
    "Cycle mapping on \"" + symbol + "\" symbol"
  }

  function DuplicateError(symbol: string): string
  {
    "Duplicated \"" + symbol + "\" symbol"
  }

  // The first loop of `add_mapping`, master by master.

  /** The masters in `done` have no slave that is a master, and share no slave. */
  ghost predicate CleanOn(mapping: Mapping, done: set<string>)
  {
    (forall master, slave :: master in done && SlaveOf(mapping, master, slave) ==> slave !in mapping)
    && (forall m1, m2, slave :: m1 in done && m2 in done && SlaveOf(mapping, m1, slave) && SlaveOf(mapping, m2, slave)
          ==> m1 == m2)
  }

  /** `reverse` sends exactly the slaves of the masters in `done` to their master. */
  ghost predicate InverseOn(mapping: Mapping, done: set<string>, reverse: Reverse)
  {
    (forall slave :: slave in reverse ==> reverse[slave] in done && SlaveOf(mapping, reverse[slave], slave))
    && (forall master, slave :: master in done && SlaveOf(mapping, master, slave)
          ==> slave in reverse && reverse[slave] == master)
  }

  lemma CleanOnAll(mapping: Mapping)
    ensures CleanOn(mapping, mapping.Keys) <==> NoCycles(mapping) && NoDuplicates(mapping)
  {
  }

  lemma CleanOnSubset(mapping: Mapping, done: set<string>, more: set<string>)
    requires done <= more
    ensures CleanOn(mapping, more) ==> CleanOn(mapping, done)
  {
  }

  /** The inner loop of the first pass: the slaves of one master enter `reverse`. */
  method ReverseMaster(mapping: Mapping, done: set<string>, master: string, reverse: Reverse)
    returns (r: Result<Reverse>)
    requires master in mapping && master !in done
    requires CleanOn(mapping, done) && InverseOn(mapping, done, reverse)
    ensures r.Ok? <==> CleanOn(mapping, done + {master})
    ensures r.Ok? ==> InverseOn(mapping, done + {master}, r.value)
    ensures r.Err? ==> exists slave ::
      SlaveOf(mapping, master, slave)
      && ((r.error == CycleError(slave) && slave in mapping)
          || (r.error == DuplicateError(slave) && exists other :: other != master && SlaveOf(mapping, other, slave)))
  {
    var current := reverse;
    var pending := mapping[master];
    while pending != {}
      invariant pending <= mapping[master]
      invariant forall slave :: slave in current ==>
        (current[slave] in done && SlaveOf(mapping, current[slave], slave))
        || (current[slave] == master && slave in mapping[master] && slave !in pending)
      invariant forall m, slave :: m in done && SlaveOf(mapping, m, slave) ==> slave in current && current[slave] == m
      invariant forall slave :: slave in mapping[master] && slave !in pending ==>
        slave in current && current[slave] == master && slave !in mapping
      decreases pending
    {
      var slave :| slave in pending;
      if slave in mapping {
        assert !CleanOn(mapping, done + {master}) by {
          assert SlaveOf(mapping, master, slave);
        }
        return Err(CycleError(slave));
      }
      if slave in current {
        var other := current[slave];
        assert other in done && SlaveOf(mapping, other, slave);
        assert !CleanOn(mapping, done + {master}) by {
          assert SlaveOf(mapping, master, slave);
        }
        return Err(DuplicateError(slave));
      }
      current := current[slave := master];
      pending := pending - {slave};
    }
    r := Ok(current);
  }

  /** The errors the first loop may report: a slave that is a master, or a slave with two masters. */
  ghost predicate ReverseError(mapping: Mapping, error: string)
  {
    exists master, slave ::
      SlaveOf(mapping, master, slave)
      && ((error == CycleError(slave) && slave in mapping)
          || (error == DuplicateError(slave) && exists other :: other != master && SlaveOf(mapping, other, slave)))
  }

  /** The first loop of `add_mapping`: the reverse map of the new mapping, or the first conflict in it. */
  method BuildReverse(mapping: Mapping) returns (r: Result<Reverse>)
    ensures r.Ok? <==> NoCycles(mapping) && NoDuplicates(mapping)
    ensures r.Ok? ==> IsInverse(mapping, r.value)
    ensures r.Err? ==> ReverseError(mapping, r.error)
  {
    var reverse: Reverse := map[];
    var pending := mapping.Keys;
    while pending != {}
      invariant pending <= mapping.Keys
      invariant CleanOn(mapping, mapping.Keys - pending) && InverseOn(mapping, mapping.Keys - pending, reverse)
      decreases pending
    {
      var master :| master in pending;
      var next := ReverseMaster(mapping, mapping.Keys - pending, master, reverse);
      assert (mapping.Keys - pending) + {master} == mapping.Keys - (pending - {master});
      if next.Err? {
        CleanOnAll(mapping);
        CleanOnSubset(mapping, (mapping.Keys - pending) + {master}, mapping.Keys);
        return Err(next.error);
      }
      reverse := next.value;
      pending := pending - {master};
    }
    assert mapping.Keys - pending == mapping.Keys;
    CleanOnAll(mapping);
    r := Ok(reverse);
  }

  // The second loop of `add_mapping`: the old groups join the new mapping.

  /** The master an old master's group joins: its new master if it became a slave, else itself. */
  function Real(reverse: Reverse, master: string): string
  {
    if master in reverse then reverse[master] else master
  }

  /** The old slaves that the masters in `done` bring to `master`. */
  function Attached(previous: Mapping, reverse: Reverse, done: set<string>, master: string): set<string>
  {
    set m, slave | m in done && m in previous && slave in previous[m] && Real(reverse, m) == master :: slave
  }

  /** The new mapping after the old groups of the masters in `done` joined it. */
  function MergedOn(previous: Mapping, mapping: Mapping, reverse: Reverse, done: set<string>): Mapping
  {
    map master | master in mapping.Keys + Targets(previous, reverse, done) ::
      (if master in mapping then mapping[master] else {}) + Attached(previous, reverse, done, master)
  }

  /**
   * No old slave of the masters in `done` is a new master, and none has a new
   * master other than the one its group joins.
   */
  ghost predicate ConflictFreeOn(previous: Mapping, mapping: Mapping, reverse: Reverse, done: set<string>)
  {
    forall m, slave :: m in done && SlaveOf(previous, m, slave) ==>
      slave !in mapping && (slave in reverse ==> reverse[slave] == Real(reverse, m))
  }

  function Slaves(mapping: Mapping): set<string>
  {
    set m, slave | m in mapping && slave in mapping[m] :: slave
  }

  /** The reverse map of a mapping without duplicates. */
  ghost function InverseOf(mapping: Mapping): (r: Reverse)
    requires NoDuplicates(mapping)
    ensures IsInverse(mapping, r)
  {
    map slave | slave in Slaves(mapping) :: var master :| SlaveOf(mapping, master, slave); master
  }

  lemma InverseUnique(mapping: Mapping, r1: Reverse, r2: Reverse)
    requires IsInverse(mapping, r1) && IsInverse(mapping, r2)
    ensures r1 == r2
  {
    assert forall slave :: slave in r1 ==> slave in r2 && r1[slave] == r2[slave];
  }

  /** `add_mapping` accepts the new mapping exactly when it is consistent and joins the old groups without conflict. */
  ghost predicate Accepts(previous: Mapping, mapping: Mapping)
  {
    NoCycles(mapping) && NoDuplicates(mapping) && ConflictFreeOn(previous, mapping, InverseOf(mapping), previous.Keys)
  }

  /** The configuration `add_mapping` leaves when it accepts. */
  ghost function Merged(previous: Mapping, mapping: Mapping): Mapping
    requires NoDuplicates(mapping)
  {
    MergedOn(previous, mapping, InverseOf(mapping), previous.Keys)
  }

  lemma MergedNone(previous: Mapping, mapping: Mapping, reverse: Reverse)
    ensures MergedOn(previous, mapping, reverse, {}) == mapping
  {
    var merged := MergedOn(previous, mapping, reverse, {});
    assert merged.Keys == mapping.Keys;
    forall master | master in mapping
      ensures merged[master] == mapping[master]
    {
      assert Attached(previous, reverse, {}, master) == {};
    }
  }

  function Targets(previous: Mapping, reverse: Reverse, done: set<string>): set<string>
  {
    set m | m in done && m in previous :: Real(reverse, m)
  }

  lemma TargetsAdd(previous: Mapping, reverse: Reverse, done: set<string>, m: string)
    requires m in previous
    ensures Targets(previous, reverse, done + {m}) == Targets(previous, reverse, done) + {Real(reverse, m)}
  {
  }

  lemma AttachedAdd(previous: Mapping, reverse: Reverse, done: set<string>, m: string, master: string)
    requires m in previous && m !in done
    ensures Attached(previous, reverse, done + {m}, master)
      == Attached(previous, reverse, done, master) + (if Real(reverse, m) == master then previous[m] else {})
  {
    var before := Attached(previous, reverse, done, master);
    var after := Attached(previous, reverse, done + {m}, master);
    var extra := if Real(reverse, m) == master then previous[m] else {};
    forall slave | slave in after
      ensures slave in before + extra
    {
      var x, y :| x in done + {m} && x in previous && y in previous[x] && Real(reverse, x) == master && y == slave;
      if x != m {
        assert slave in before;
      }
    }
  }

  lemma AttachedElsewhere(previous: Mapping, reverse: Reverse, done: set<string>, master: string)
    requires master !in Targets(previous, reverse, done)
    ensures Attached(previous, reverse, done, master) == {}
  {
  }

  /** The group an extra old master brings, master by master. */
  lemma MergedStepAt(previous: Mapping, mapping: Mapping, reverse: Reverse, done: set<string>, m: string,
                     master: string)
    requires m in previous && m !in done
    requires master in MergedOn(previous, mapping, reverse, done + {m})
    ensures var before := MergedOn(previous, mapping, reverse, done);
      var extra := if Real(reverse, m) == master then previous[m] else {};
      MergedOn(previous, mapping, reverse, done + {m})[master]
        == (if master in before then before[master] else {}) + extra
  {
    AttachedAdd(previous, reverse, done, m, master);
    if master !in MergedOn(previous, mapping, reverse, done) {
      AttachedElsewhere(previous, reverse, done, master);
    }
  }

  lemma MappingsEqual(a: Mapping, b: Mapping)
    requires a.Keys == b.Keys && forall k :: k in a ==> a[k] == b[k]
    ensures a == b
  {
  }

  function StepExpected(previous: Mapping, mapping: Mapping, reverse: Reverse, done: set<string>, m: string): Mapping
    requires m in previous
  {
    var before := MergedOn(previous, mapping, reverse, done);
    var target := Real(reverse, m);
    before[target := (if target in before then before[target] else {}) + previous[m]]
  }

  lemma MergedStepKeys(previous: Mapping, mapping: Mapping, reverse: Reverse, done: set<string>, m: string)
    requires m in previous && m !in done
    ensures MergedOn(previous, mapping, reverse, done + {m}).Keys == StepExpected(previous, mapping, reverse, done, m).Keys
  {
    TargetsAdd(previous, reverse, done, m);
  }

  lemma MergedStepValues(previous: Mapping, mapping: Mapping, reverse: Reverse, done: set<string>, m: string)
    requires m in previous && m !in done
    requires MergedOn(previous, mapping, reverse, done + {m}).Keys == StepExpected(previous, mapping, reverse, done, m).Keys
    ensures var after := MergedOn(previous, mapping, reverse, done + {m});
      forall master :: master in after ==> after[master] == StepExpected(previous, mapping, reverse, done, m)[master]
  {
    var after := MergedOn(previous, mapping, reverse, done + {m});
    forall master | master in after
      ensures after[master] == StepExpected(previous, mapping, reverse, done, m)[master]
    {
      MergedStepAt(previous, mapping, reverse, done, m, master);
    }
  }

  /** One more old master: its group joins the master it is attached to. */
  lemma MergedStep(previous: Mapping, mapping: Mapping, reverse: Reverse, done: set<string>, m: string)
    requires m in previous && m !in done
    ensures MergedOn(previous, mapping, reverse, done + {m}) == StepExpected(previous, mapping, reverse, done, m)
  {
    MergedStepKeys(previous, mapping, reverse, done, m);
    MergedStepValues(previous, mapping, reverse, done, m);
    MappingsEqual(MergedOn(previous, mapping, reverse, done + {m}), StepExpected(previous, mapping, reverse, done, m));
  }

  /** Where a slave of the merged mapping comes from. */
  lemma MergedSlave(previous: Mapping, mapping: Mapping, reverse: Reverse, done: set<string>, master: string, slave: string)
    requires SlaveOf(MergedOn(previous, mapping, reverse, done), master, slave)
    ensures SlaveOf(mapping, master, slave)
      || exists m :: m in done && SlaveOf(previous, m, slave) && Real(reverse, m) == master
  {
    if !SlaveOf(mapping, master, slave) {
      assert slave in Attached(previous, reverse, done, master);
    }
  }

  lemma MergedKeeps(previous: Mapping, mapping: Mapping, reverse: Reverse, done: set<string>, master: string, slave: string)
    requires SlaveOf(mapping, master, slave)
    ensures SlaveOf(MergedOn(previous, mapping, reverse, done), master, slave)
  {
  }

  /** While joining, an old master is looked up in the growing reverse map as in the new mapping's own. */
  lemma RealAgrees(previous: Mapping, mapping: Mapping, reverse0: Reverse, done: set<string>, reverse: Reverse, m: string)
    requires NoCycles(previous) && IsInverse(mapping, reverse0) && m in previous
    requires IsInverse(MergedOn(previous, mapping, reverse0, done), reverse)
    ensures Real(reverse, m) == Real(reverse0, m)
  {
    if m in reverse {
      MergedSlave(previous, mapping, reverse0, done, reverse[m], m);
    }
    if m in reverse0 {
      MergedKeeps(previous, mapping, reverse0, done, reverse0[m], m);
    }
  }

  /** While joining, an old slave is a key of the merged mapping exactly when it is a new master. */
  lemma OldSlaveKey(previous: Mapping, mapping: Mapping, reverse0: Reverse, done: set<string>, m: string, slave: string)
    requires NoCycles(previous) && IsInverse(mapping, reverse0) && SlaveOf(previous, m, slave)
    ensures slave in MergedOn(previous, mapping, reverse0, done) <==> slave in mapping
  {
  }

  /** An inverse map makes a mapping free of duplicates. */
  lemma InverseNoDuplicates(mapping: Mapping, reverse: Reverse)
    requires IsInverse(mapping, reverse)
    ensures NoDuplicates(mapping)
  {
  }

  /** Before an old master joins, its slaves are looked up in the growing reverse map as in the new mapping's own. */
  lemma PendingReverse(previous: Mapping, mapping: Mapping, reverse0: Reverse, done: set<string>, master: string,
                       reverse: Reverse, slave: string)
    requires NoDuplicates(previous) && IsInverse(mapping, reverse0)
    requires master !in done && SlaveOf(previous, master, slave)
    requires IsInverse(MergedOn(previous, mapping, reverse0, done), reverse)
    ensures (slave in reverse <==> slave in reverse0) && (slave in reverse ==> reverse[slave] == reverse0[slave])
  {
    if slave in reverse {
      MergedSlave(previous, mapping, reverse0, done, reverse[slave], slave);
    }
    if slave in reverse0 {
      MergedKeeps(previous, mapping, reverse0, done, reverse0[slave], slave);
    }
  }

  /** An old slave is never the master its own group joins, unless it is a new master. */
  lemma TargetNotOwnSlave(previous: Mapping, mapping: Mapping, reverse0: Reverse, master: string, slave: string)
    requires NoCycles(previous) && IsInverse(mapping, reverse0) && SlaveOf(previous, master, slave)
    ensures slave == Real(reverse0, master) ==> slave in mapping
  {
    InverseKey(mapping, reverse0, master);
  }

  /**
   * One old slave joins `target`: refused when it already has another master,
   * otherwise added to the group and to the reverse map.
   */
  method AttachSlave(merged: Mapping, rev: Reverse, target: string, slave: string)
    returns (r: Result<(Mapping, Reverse)>)
    requires IsInverse(merged, rev) && target in merged
    ensures r.Ok? <==> !(slave in rev && rev[slave] != target)
    ensures r.Ok? ==> (r.value == (merged[target := merged[target] + {slave}], rev[slave := target])
                       && IsInverse(r.value.0, r.value.1))
    ensures r.Err? ==> r.error == DuplicateError(slave)
  {
    if slave in merged[target] {
      assert merged[target] + {slave} == merged[target];
      assert merged[target := merged[target]] == merged;
      assert SlaveOf(merged, target, slave);
      assert rev[slave := target] == rev;
      return Ok((merged, rev));
    }
    if slave in rev {
      return Err(DuplicateError(slave));
    }
    InverseAddSlave(merged, rev, target, slave);
    r := Ok((merged[target := merged[target] + {slave}], rev[slave := target]));
  }

  lemma UpdateTwice(m: Mapping, k: string, a: set<string>, b: set<string>)
    ensures m[k := a][k := b] == m[k := b]
  {
  }

  /** The slaves of a group may join `target`: none is a master, and none has another master. */
  ghost predicate Joinable(merged: Mapping, rev: Reverse, target: string, slaves: set<string>)
  {
    forall slave :: slave in slaves ==> slave !in merged && (slave in rev ==> rev[slave] == target)
  }

  /** The inner loop of the second pass: the slaves of one old group join `target` one by one. */
  method JoinGroup(merged: Mapping, rev: Reverse, target: string, slaves: set<string>)
    returns (r: Result<(Mapping, Reverse)>)
    requires IsInverse(merged, rev) && target in merged
    ensures r.Ok? <==> Joinable(merged, rev, target, slaves)
    ensures r.Ok? ==> (r.value.0 == merged[target := merged[target] + slaves] && IsInverse(r.value.0, r.value.1))
    ensures r.Err? ==> exists slave ::
      slave in slaves
      && ((r.error == CycleError(slave) && slave in merged)
          || (r.error == DuplicateError(slave) && slave in rev && rev[slave] != target))
  {
    var current, currentRev := merged, rev;
    var pending := slaves;
    assert merged[target] + (slaves - pending) == merged[target];
    assert merged[target := merged[target]] == merged;
    while pending != {}
      invariant pending <= slaves
      invariant current == merged[target := merged[target] + (slaves - pending)]
      invariant IsInverse(current, currentRev)
      invariant forall slave :: slave in pending ==>
        (slave in currentRev <==> slave in rev) && (slave in currentRev ==> currentRev[slave] == rev[slave])
      invariant Joinable(merged, rev, target, slaves - pending)
      decreases pending
    {
      var slave :| slave in pending;
      if slave in current {
        assert slave in merged;
        return Err(CycleError(slave));
      }
      var next := AttachSlave(current, currentRev, target, slave);
      if next.Err? {
        return Err(next.error);
      }
      ghost var added := slaves - pending;
      assert slaves - (pending - {slave}) == added + {slave};
      assert merged[target] + added + {slave} == merged[target] + (added + {slave});
      UpdateTwice(merged, target, merged[target] + added, merged[target] + added + {slave});
      current, currentRev := next.value.0, next.value.1;
      pending := pending - {slave};
    }
    assert slaves - pending == slaves;
    r := Ok((current, currentRev));
  }

  /** What the inner loop of the second pass checks as written: only that no slave has another master. */
  ghost predicate JoinableAsWritten(rev: Reverse, target: string, slaves: set<string>)
  {
    forall slave :: slave in slaves ==> (slave in rev ==> rev[slave] == target)
  }

  /**
   * The inner loop of the second pass as written: an old slave that is a master of
   * the new mapping is not refused, so it becomes a slave while it keeps its own slaves.
   */
  method JoinGroupAsWritten(merged: Mapping, rev: Reverse, target: string, slaves: set<string>)
    returns (r: Result<(Mapping, Reverse)>)
    requires IsInverse(merged, rev) && target in merged
    ensures r.Ok? <==> JoinableAsWritten(rev, target, slaves)
    ensures r.Ok? ==> (r.value.0 == merged[target := merged[target] + slaves] && IsInverse(r.value.0, r.value.1))
    ensures r.Err? ==> exists slave ::
      slave in slaves && r.error == DuplicateError(slave) && slave in rev && rev[slave] != target
  {
    var current, currentRev := merged, rev;
    var pending := slaves;
    assert merged[target] + (slaves - pending) == merged[target];
    assert merged[target := merged[target]] == merged;
    while pending != {}
      invariant pending <= slaves
      invariant current == merged[target := merged[target] + (slaves - pending)]
      invariant IsInverse(current, currentRev)
      invariant forall slave :: slave in pending ==>
        (slave in currentRev <==> slave in rev) && (slave in currentRev ==> currentRev[slave] == rev[slave])
      invariant JoinableAsWritten(rev, target, slaves - pending)
      decreases pending
    {
      var slave :| slave in pending;
      var next := AttachSlave(current, currentRev, target, slave);
      if next.Err? {
        return Err(next.error);
      }
      ghost var added := slaves - pending;
      assert slaves - (pending - {slave}) == added + {slave};
      assert merged[target] + added + {slave} == merged[target] + (added + {slave});
      UpdateTwice(merged, target, merged[target] + added, merged[target] + added + {slave});
      current, currentRev := next.value.0, next.value.1;
      pending := pending - {slave};
    }
    assert slaves - pending == slaves;
    r := Ok((current, currentRev));
  }

  /**
   * The second pass for one old `master`: its slaves join the master its group is
   * attached to. An old slave that is a new master is refused.
   */
  method AttachMaster(previous: Mapping, mapping: Mapping, reverse0: Reverse, done: set<string>, master: string,
                      current: Mapping, reverse: Reverse) returns (r: Result<(Mapping, Reverse)>)
    requires NoCycles(previous) && NoDuplicates(previous) && IsInverse(mapping, reverse0)
    requires master in previous && master !in done
    requires current == MergedOn(previous, mapping, reverse0, done) && IsInverse(current, reverse)
    ensures r.Ok? <==> ConflictFreeOn(previous, mapping, reverse0, {master})
    ensures r.Ok? ==> (r.value.0 == MergedOn(previous, mapping, reverse0, done + {master})
                       && IsInverse(r.value.0, r.value.1))
    ensures r.Err? ==> exists slave ::
      SlaveOf(previous, master, slave)
      && ((r.error == CycleError(slave) && slave in mapping)
          || (r.error == DuplicateError(slave) && slave in reverse0 && reverse0[slave] != Real(reverse0, master)))
  {
    RealAgrees(previous, mapping, reverse0, done, reverse, master);
    var target := if master in reverse then reverse[master] else master;
    var base := current;
    if target !in base {
      InverseAddKey(base, reverse, target);
      base := base[target := {}];
    }
    OldGroupLookups(previous, mapping, reverse0, done, master, current, reverse, target, base);
    JoinableOnOldGroup(previous, mapping, reverse0, master, reverse, target, base);
    r := JoinGroup(base, reverse, target, previous[master]);
    if r.Ok? {
      MergedStep(previous, mapping, reverse0, done, master);
      if target !in current {
        UpdateTwice(current, target, {}, previous[master]);
        assert base[target] + previous[master] == previous[master];
      }
    }
  }

  /** Before an old group joins, its slaves are keys and reverse entries exactly as in the new mapping. */
  lemma OldGroupLookups(previous: Mapping, mapping: Mapping, reverse0: Reverse, done: set<string>, master: string,
                        current: Mapping, reverse: Reverse, target: string, base: Mapping)
    requires NoCycles(previous) && NoDuplicates(previous) && IsInverse(mapping, reverse0)
    requires master in previous && master !in done && target == Real(reverse0, master)
    requires current == MergedOn(previous, mapping, reverse0, done) && IsInverse(current, reverse)
    requires base == current || (target !in current && base == current[target := {}])
    ensures forall slave :: slave in previous[master] ==>
      (slave in base <==> slave in mapping) && (slave in reverse <==> slave in reverse0)
      && (slave in reverse ==> reverse[slave] == reverse0[slave])
  {
    forall slave | slave in previous[master]
      ensures (slave in base <==> slave in mapping) && (slave in reverse <==> slave in reverse0)
      ensures slave in reverse ==> reverse[slave] == reverse0[slave]
    {
      OldSlaveKey(previous, mapping, reverse0, done, master, slave);
      TargetNotOwnSlave(previous, mapping, reverse0, master, slave);
      PendingReverse(previous, mapping, reverse0, done, master, reverse, slave);
    }
  }

  /** The group of an old master may join exactly when it is free of conflicts. */
  lemma JoinableOnOldGroup(previous: Mapping, mapping: Mapping, reverse0: Reverse, master: string,
                           reverse: Reverse, target: string, base: Mapping)
    requires master in previous && target == Real(reverse0, master)
    requires forall slave :: slave in previous[master] ==>
      (slave in base <==> slave in mapping) && (slave in reverse <==> slave in reverse0)
      && (slave in reverse ==> reverse[slave] == reverse0[slave])
    ensures Joinable(base, reverse, target, previous[master]) <==> ConflictFreeOn(previous, mapping, reverse0, {master})
  {
  }

  lemma InverseAddKey(merged: Mapping, rev: Reverse, target: string)
    requires IsInverse(merged, rev) && target !in merged
    ensures IsInverse(merged[target := {}], rev)
  {
    var next := merged[target := {}];
    forall slave | slave in rev
      ensures SlaveOf(next, rev[slave], slave)
    {
      assert SlaveOf(merged, rev[slave], slave);
    }
    forall m, slave | SlaveOf(next, m, slave)
      ensures slave in rev && rev[slave] == m
    {
      assert SlaveOf(merged, m, slave);
    }
  }

  lemma InverseAddSlave(merged: Mapping, rev: Reverse, target: string, slave: string)
    requires IsInverse(merged, rev) && target in merged && slave !in rev
    ensures IsInverse(merged[target := merged[target] + {slave}], rev[slave := target])
  {
    var next := merged[target := merged[target] + {slave}];
    var nextRev := rev[slave := target];
    forall s | s in nextRev
      ensures SlaveOf(next, nextRev[s], s)
    {
      if s != slave {
        assert SlaveOf(merged, rev[s], s);
      }
    }
    forall m, s | SlaveOf(next, m, s)
      ensures s in nextRev && nextRev[s] == m
    {
      if s != slave {
        assert SlaveOf(merged, m, s);
      } else if m != target {
        assert SlaveOf(merged, m, s);
      }
    }
  }

  lemma ConflictFreeJoin(previous: Mapping, mapping: Mapping, reverse0: Reverse, done: set<string>, master: string)
    ensures ConflictFreeOn(previous, mapping, reverse0, done + {master})
      <==> ConflictFreeOn(previous, mapping, reverse0, done) && ConflictFreeOn(previous, mapping, reverse0, {master})
  {
  }

  /**
   * The errors the second loop may report: an old slave that is a new master, or an
   * old slave whose new master is not the one its group joins.
   */
  ghost predicate JoinError(previous: Mapping, mapping: Mapping, reverse0: Reverse, error: string)
  {
    exists master, slave ::
      SlaveOf(previous, master, slave)
      && ((error == CycleError(slave) && slave in mapping)
          || (error == DuplicateError(slave) && slave in reverse0 && reverse0[slave] != Real(reverse0, master)))
  }

  /** The second loop of `add_mapping`: every old group joins the new mapping, or the first conflict. */
  method JoinPrevious(previous: Mapping, mapping: Mapping, reverse0: Reverse) returns (r: Result<(Mapping, Reverse)>)
    requires NoCycles(previous) && NoDuplicates(previous) && IsInverse(mapping, reverse0)
    ensures r.Ok? <==> ConflictFreeOn(previous, mapping, reverse0, previous.Keys)
    ensures r.Ok? ==> (r.value.0 == MergedOn(previous, mapping, reverse0, previous.Keys)
                       && IsInverse(r.value.0, r.value.1))
    ensures r.Err? ==> JoinError(previous, mapping, reverse0, r.error)
  {
    var merged := mapping;
    var rev := reverse0;
    MergedNone(previous, mapping, reverse0);
    var pending := previous.Keys;
    assert previous.Keys - pending == {};
    while pending != {}
      invariant pending <= previous.Keys
      invariant merged == MergedOn(previous, mapping, reverse0, previous.Keys - pending) && IsInverse(merged, rev)
      invariant ConflictFreeOn(previous, mapping, reverse0, previous.Keys - pending)
      decreases pending
    {
      var master :| master in pending;
      var next := AttachMaster(previous, mapping, reverse0, previous.Keys - pending, master, merged, rev);
      ConflictFreeJoin(previous, mapping, reverse0, previous.Keys - pending, master);
      assert (previous.Keys - pending) + {master} == previous.Keys - (pending - {master});
      if next.Err? {
        ConflictFreeJoin(previous, mapping, reverse0, previous.Keys - {master}, master);
        assert previous.Keys - {master} + {master} == previous.Keys;
        return Err(next.error);
      }
      merged, rev := next.value.0, next.value.1;
      pending := pending - {master};
    }
    assert previous.Keys - pending == previous.Keys;
    r := Ok((merged, rev));
  }

  lemma InverseKey(mapping: Mapping, reverse: Reverse, slave: string)
    ensures IsInverse(mapping, reverse) && slave in reverse ==> reverse[slave] in mapping
  {
  }

  /** Joining without conflict leaves no slave that is also a master. */
  lemma MergedNoCycles(previous: Mapping, mapping: Mapping, reverse0: Reverse)
    requires NoCycles(previous) && NoCycles(mapping) && IsInverse(mapping, reverse0)
    requires ConflictFreeOn(previous, mapping, reverse0, previous.Keys)
    ensures NoCycles(MergedOn(previous, mapping, reverse0, previous.Keys))
  {
    var merged := MergedOn(previous, mapping, reverse0, previous.Keys);
    forall master, slave | SlaveOf(merged, master, slave)
      ensures slave !in merged
    {
      MergedSlave(previous, mapping, reverse0, previous.Keys, master, slave);
      if slave in Targets(previous, reverse0, previous.Keys) {
        var y :| y in previous.Keys && y in previous && Real(reverse0, y) == slave;
        InverseKey(mapping, reverse0, y);
      }
    }
  }

  /** `map`: a slave's master, any other symbol itself. */
  function MapSymbol(reverse: Reverse, symbol: string): (r: string)
    ensures symbol in reverse ==> r == reverse[symbol]
    ensures symbol !in reverse ==> r == symbol
  {
    if symbol in reverse then reverse[symbol] else symbol
  }

  /** In a consistent configuration a master is nobody's slave. */
  lemma MasterNotSlave(mapping: Mapping, reverse: Reverse, master: string)
    ensures Consistent(mapping, reverse) && master in mapping ==> master !in reverse
  {
  }

  /** `map` sends a slave to its master and leaves a master alone. */
  lemma MapSendsSlaveToMaster(mapping: Mapping, reverse: Reverse, master: string, slave: string)
    requires Consistent(mapping, reverse) && SlaveOf(mapping, master, slave)
    ensures MapSymbol(reverse, slave) == master && MapSymbol(reverse, master) == master
  {
    MasterNotSlave(mapping, reverse, master);
  }

  /** Mapping a symbol twice is mapping it once: a master is never mapped further. */
  lemma MapIdempotent(mapping: Mapping, reverse: Reverse, symbol: string)
    requires Consistent(mapping, reverse)
    ensures MapSymbol(reverse, MapSymbol(reverse, symbol)) == MapSymbol(reverse, symbol)
  {
    if symbol in reverse {
      assert SlaveOf(mapping, reverse[symbol], symbol);
      MasterNotSlave(mapping, reverse, reverse[symbol]);
    }
  }

  lemma MapIdempotentWhenValid(mapping: Mapping, reverse: Reverse, symbol: string)
    ensures Consistent(mapping, reverse) ==> MapSymbol(reverse, MapSymbol(reverse, symbol)) == MapSymbol(reverse, symbol)
  {
    if Consistent(mapping, reverse) {
      MapIdempotent(mapping, reverse, symbol);
    }
  }

  /**
   * The pairs of the merged configuration: the new mapping's, and each old pair
   * under the master its group joins; nothing else.
   */
  lemma {:induction false} MergedPairs(previous: Mapping, mapping: Mapping, master: string, slave: string)
    requires NoDuplicates(mapping)
    ensures SlaveOf(Merged(previous, mapping), master, slave)
      <==> SlaveOf(mapping, master, slave)
           || exists m :: SlaveOf(previous, m, slave) && Real(InverseOf(mapping), m) == master
  {
    var reverse := InverseOf(mapping);
    if SlaveOf(Merged(previous, mapping), master, slave) {
      MergedSlave(previous, mapping, reverse, previous.Keys, master, slave);
    }
    if SlaveOf(mapping, master, slave) {
      MergedKeeps(previous, mapping, reverse, previous.Keys, master, slave);
    }
    if m :| SlaveOf(previous, m, slave) && Real(reverse, m) == master {
      assert master in Targets(previous, reverse, previous.Keys);
      assert slave in Attached(previous, reverse, previous.Keys, master);
    }
  }

  /** An old master that became a new slave is no longer a master: its group moved to its superior master. */
  lemma GroupFollowsSuperior(previous: Mapping, mapping: Mapping, m: string)
    requires NoCycles(mapping) && NoDuplicates(mapping) && m in previous
    ensures var reverse := InverseOf(mapping);
      var merged := Merged(previous, mapping);
      Real(reverse, m) in merged && previous[m] <= merged[Real(reverse, m)]
      && (m in reverse ==> m !in merged)
  {
    var reverse := InverseOf(mapping);
    assert Real(reverse, m) in Targets(previous, reverse, previous.Keys);
    forall slave | slave in previous[m]
      ensures slave in Merged(previous, mapping)[Real(reverse, m)]
    {
      assert slave in Attached(previous, reverse, previous.Keys, Real(reverse, m));
    }
    if m in reverse {
      assert SlaveOf(mapping, reverse[m], m);
      forall x | x in previous
        ensures Real(reverse, x) != m
      {
        if x in reverse {
          assert SlaveOf(mapping, reverse[x], x);
        }
      }
    }
  }

  /** Adding a consistent configuration to itself is accepted and changes nothing. */
  lemma SameMappingTwice(mapping: Mapping, reverse: Reverse)
    requires Consistent(mapping, reverse)
    ensures Accepts(mapping, mapping) && Merged(mapping, mapping) == mapping
  {
    var inv := InverseOf(mapping);
    InverseUnique(mapping, reverse, inv);
    forall m | m in mapping
      ensures Real(inv, m) == m
    {
      MasterNotSlave(mapping, reverse, m);
    }
    var merged := Merged(mapping, mapping);
    assert Targets(mapping, inv, mapping.Keys) == mapping.Keys;
    forall master | master in merged
      ensures merged[master] == mapping[master]
    {
      forall slave | slave in Attached(mapping, inv, mapping.Keys, master)
        ensures slave in mapping[master]
      {
        var m, y :| m in mapping && y in mapping[m] && Real(inv, m) == master && y == slave;
      }
      assert forall slave :: slave in mapping[master] ==> slave in Attached(mapping, inv, mapping.Keys, master);
    }
    MappingsEqual(merged, mapping);
  }

  /** `add_mapping` as written: the new mapping is consistent and no old slave gets another master. */
  ghost predicate AcceptsAsWritten(previous: Mapping, mapping: Mapping)
  {
    NoCycles(mapping) && NoDuplicates(mapping)
    && forall m, slave :: SlaveOf(previous, m, slave) ==>
      var reverse := InverseOf(mapping);
      slave in reverse ==> reverse[slave] == Real(reverse, m)
  }

  /**
   * An old group `ABC = [A]` followed by a new group `A = [X]`: as written it is
   * accepted, while the corrected check refuses it.
   */
  lemma ChainedMappingAccepted()
    ensures AcceptsAsWritten(map["ABC" := {"A"}], map["A" := {"X"}])
    ensures !Accepts(map["ABC" := {"A"}], map["A" := {"X"}])
  {
    var mapping := map["A" := {"X"}];
    var reverse := map["X" := "A"];
    assert IsInverse(mapping, reverse);
    InverseUnique(mapping, reverse, InverseOf(mapping));
    assert SlaveOf(map["ABC" := {"A"}], "ABC", "A") && "A" in mapping;
  }

  /**
   * The same case in the inner loop: the group `ABC` takes `A`, which stays the master
   * of `X`, so the merged mapping has a slave that is a master.
   */
  lemma ChainedGroupJoinsAsWritten()
    ensures var merged := map["A" := {"X"}, "ABC" := {}];
      var rev := map["X" := "A"];
      IsInverse(merged, rev) && JoinableAsWritten(rev, "ABC", {"A"}) && !Joinable(merged, rev, "ABC", {"A"})
      && !NoCycles(merged["ABC" := merged["ABC"] + {"A"}])
  {
    var merged := map["A" := {"X"}, "ABC" := {}];
    var rev := map["X" := "A"];
    assert IsInverse(merged, rev);
    assert JoinableAsWritten(rev, "ABC", {"A"});
    var attached := merged["ABC" := merged["ABC"] + {"A"}];
    assert SlaveOf(attached, "ABC", "A") && "A" in attached;
  }

  /** The reverse map it leaves sends `X` to `A` but `A` on to `ABC`: `map` is no longer idempotent. */
  lemma ChainedMapNotIdempotent()
    ensures var joined := map["X" := "A", "A" := "ABC"];
      IsInverse(map["A" := {"X"}, "ABC" := {"A"}], joined)
      && MapSymbol(joined, MapSymbol(joined, "X")) != MapSymbol(joined, "X")
  {
    assert SlaveOf(map["A" := {"X"}, "ABC" := {"A"}], "ABC", "A");
  }

  /** A second mapping whose groups `LM` and `LN` share `L` is refused, and `L` is the symbol reported. */
  lemma DuplicatedSymbolRefused()
    ensures var mapping := map["LM" := {"L", "M"}, "LN" := {"L", "N"}];
      !NoDuplicates(mapping) && forall e :: ReverseError(mapping, e) <==> e == DuplicateError("L")
  {
    var mapping := map["LM" := {"L", "M"}, "LN" := {"L", "N"}];
    assert SlaveOf(mapping, "LM", "L") && SlaveOf(mapping, "LN", "L");
  }

  /** A mapping that makes the master `LM` a slave of `LMN` is refused, and `LM` is the symbol reported. */
  lemma CycleRefused()
    ensures var mapping := map["LM" := {"L", "M"}, "LMN" := {"LM", "N"}];
      !NoCycles(mapping) && forall e :: ReverseError(mapping, e) <==> e == CycleError("LM")
  {
    var mapping := map["LM" := {"L", "M"}, "LMN" := {"LM", "N"}];
    assert SlaveOf(mapping, "LMN", "LM");
  }

  class PerformanceMergingConfig {
    var mapping: Mapping
    var reverse: Reverse

    ghost predicate Valid()
      reads this
    {
      Consistent(mapping, reverse)
    }

    /** The default configuration: nothing is merged. */
    constructor ()
      ensures mapping == map[] && reverse == map[] && Valid()
    {
      mapping := map[];
      reverse := map[];
    }

    function Map(symbol: string): (r: string)
      reads this
      ensures r == MapSymbol(reverse, symbol)
      ensures Valid() ==> MapSymbol(reverse, r) == r
    {
      MapIdempotentWhenValid(mapping, reverse, symbol);
      MapSymbol(reverse, symbol)
    }

    /**
     * `add_mapping`: the new mapping after its own check and the join of the old
     * groups; on an error the configuration is unchanged.
     */
    method AddMapping(other: Mapping) returns (r: Result<()>)
      requires Valid()
      modifies this
      ensures Valid()
      ensures r.Ok? <==> Accepts(old(mapping), other)
      ensures r.Ok? ==> mapping == Merged(old(mapping), other)
      ensures r.Err? ==> mapping == old(mapping) && reverse == old(reverse)
      ensures r.Err? ==> if NoCycles(other) && NoDuplicates(other)
                         then JoinError(old(mapping), other, InverseOf(other), r.error)
                         else ReverseError(other, r.error)
    {
      var built := BuildReverse(other);
      if built.Err? {
        return Err(built.error);
      }
      var reverse0 := built.value;
      InverseUnique(other, reverse0, InverseOf(other));
      var joined := JoinPrevious(mapping, other, reverse0);
      if joined.Err? {
        return Err(joined.error);
      }
      MergedNoCycles(mapping, other, reverse0);
      InverseNoDuplicates(joined.value.0, joined.value.1);
      mapping, reverse := joined.value.0, joined.value.1;
      r := Ok(());
    }

    /** `add`: `add_mapping` with the error put in context. */
    method Add(other: PerformanceMergingConfig) returns (r: Result<()>)
      requires Valid()
      modifies this
      ensures Valid()
      ensures r.Ok? <==> Accepts(old(mapping), old(other.mapping))
      ensures r.Ok? ==> mapping == Merged(old(mapping), old(other.mapping))
      ensures r.Err? ==> mapping == old(mapping) && reverse == old(reverse)
      ensures r.Err? ==> exists e :: r.error == "Invalid performance merging configuration: " + e
    {
      var added := AddMapping(other.mapping);
      if added.Err? {
        return Err("Invalid performance merging configuration: " + added.error);
      }
      r := Ok(());
    }
  }
}
