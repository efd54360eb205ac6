/** The settings and notification logic of the customer dashboard
    (components/Dashboard.tsx): the optimistic dotted-path preference update,
    the one-path partial it sends, the per-path debounce entries with their
    revert snapshots, the audit rule for billing settings, and the unread
    notification count. */
module Dashboard {
  import opened Wrappers
  import opened Text
  import opened Seqs
  import opened MockData
  import opened Preferences
  import opened MockApi

  // ---------------------------------------------------------------------------
  // The optimistic update: walk `keys[..|keys|-1]`, then assign the last key

  /** Whether the walk of `handlePrefChange` reaches an object at every step
      before the last key. */
  predicate Walkable(n: Node, keys: seq<string>)
  {
    forall i :: 0 <= i < |keys| ==> Get(n, keys[..i]).Some? && Get(n, keys[..i]).value.Branch?
  }

  /** The copy of `n` with the leaf at `keys` set to `v`. `None` is the TypeError
      the walk raises: a step into a missing key (`undefined`), or an assignment
      on a primitive, which strict-mode code refuses. The assignment itself adds
      the last key when it is absent. */
  function SetAt(n: Node, keys: seq<string>, v: Value): (r: Option<Node>)
    requires |keys| >= 1
    decreases |keys|
    ensures r.Some? ==> r.value.Branch? && Get(r.value, keys) == Some(Leaf(v))
  {
    match n
    case Leaf(_) => None
    case Branch(c) =>
      if |keys| == 1 then Some(Branch(c[keys[0] := Leaf(v)]))
      else if keys[0] !in c then None
      else match SetAt(c[keys[0]], keys[1..], v)
        case Some(m) => Some(Branch(c[keys[0] := m]))
        case None => None
  }

  /** The update throws exactly when the walk leaves the objects of the tree. */
  lemma {:induction false} SetAtDefined(n: Node, keys: seq<string>, v: Value)
    requires |keys| >= 1
    decreases |keys|
    ensures SetAt(n, keys, v).Some? <==> Walkable(n, keys)
  {
    assert keys[..0] == [];
    if n.Branch? && |keys| > 1 {
      var c := n.children;
      if keys[0] in c {
        SetAtDefined(c[keys[0]], keys[1..], v);
        forall i | 1 <= i < |keys|
          ensures Get(n, keys[..i]) == Get(c[keys[0]], keys[1..][..i - 1])
        {
          assert keys[..i][1..] == keys[1..][..i - 1];
        }
        if Walkable(n, keys) {
          forall i | 0 <= i < |keys[1..]|
            ensures Get(c[keys[0]], keys[1..][..i]).Some? && Get(c[keys[0]], keys[1..][..i]).value.Branch?
          {
            assert Get(n, keys[..i + 1]) == Get(c[keys[0]], keys[1..][..i]);
          }
        }
      } else {
        assert Get(n, keys[..1]) == None by {
          assert keys[..1][1..] == [];
        }
      }
    }
  }

  /** The optimistic update changes nothing off its own path: every path that
      is neither a prefix nor an extension of `keys` reads the same node. */
  lemma {:induction false} SetAtElsewhere(n: Node, keys: seq<string>, v: Value, p: seq<string>)
    requires |keys| >= 1 && SetAt(n, keys, v).Some?
    requires !(keys <= p) && !(p <= keys)
    decreases |keys|
    ensures Get(SetAt(n, keys, v).value, p) == Get(n, p)
  {
    var c := n.children;
    var m := SetAt(n, keys, v).value;
    if p[0] != keys[0] {
      assert p[0] in m.children <==> p[0] in c;
      if p[0] in c {
        assert m.children[p[0]] == c[p[0]];
      }
    } else {
      assert |keys| > 1;
      var sub := SetAt(c[keys[0]], keys[1..], v).value;
      assert m.children[p[0]] == sub;
      assert !(keys[1..] <= p[1..]);
      assert !(p[1..] <= keys[1..]);
      SetAtElsewhere(c[keys[0]], keys[1..], v, p[1..]);
    }
  }

  /** Only the leaf at the dotted path changes: every stored leaf not at or below
      that path keeps its value, and every leaf of the new tree away from that
      path was there before. */
  lemma SetAtLeaves(n: Node, keys: seq<string>, v: Value, p: seq<string>)
    requires |keys| >= 1 && SetAt(n, keys, v).Some?
    requires p != keys
    ensures !(keys <= p) && Get(n, p).Some? && Get(n, p).value.Leaf? ==> Get(SetAt(n, keys, v).value, p) == Get(n, p)
    ensures Get(SetAt(n, keys, v).value, p).Some? && Get(SetAt(n, keys, v).value, p).value.Leaf? ==>
      Get(SetAt(n, keys, v).value, p) == Get(n, p)
  {
    var m := SetAt(n, keys, v).value;
    SetAtDefined(n, keys, v);
    if keys <= p {
      GetBelowLeaf(m, keys, p);
      GetBelowLeaf(n, keys, p);
    } else if p <= keys {
      assert p == keys[..|p|];
      PrefixNode(n, keys, v, |p|);
    } else {
      SetAtElsewhere(n, keys, v, p);
    }
  }

  /** Below a leaf there is nothing, and a leaf read at a strict extension of a path is impossible. */
  lemma {:induction false} GetBelowLeaf(n: Node, q: seq<string>, p: seq<string>)
    requires q <= p && q != p
    decreases |q|
    ensures Get(n, q).Some? && Get(n, q).value.Leaf? ==> Get(n, p) == None
    ensures Get(n, p).Some? ==> Get(n, q).Some? && Get(n, q).value.Branch?
  {
    if q != [] && n.Branch? && q[0] in n.children {
      GetBelowLeaf(n.children[q[0]], q[1..], p[1..]);
    }
  }

  /** On a walkable path, the strict prefixes of the path hold objects before and after the update. */
  lemma {:induction false} PrefixNode(n: Node, keys: seq<string>, v: Value, i: nat)
    requires |keys| >= 1 && SetAt(n, keys, v).Some? && i < |keys|
    decreases |keys|
    ensures Get(n, keys[..i]).Some? && Get(n, keys[..i]).value.Branch?
    ensures Get(SetAt(n, keys, v).value, keys[..i]).Some? && Get(SetAt(n, keys, v).value, keys[..i]).value.Branch?
  {
    if i > 0 {
      var c := n.children;
      assert |keys| > 1;
      assert keys[..i][0] == keys[0] && keys[..i][1..] == keys[1..][..i - 1];
      PrefixNode(c[keys[0]], keys[1..], v, i - 1);
    }
  }

  // ---------------------------------------------------------------------------
  // The partial sent to the API: `{k0: {k1: ... {kn: value}}}`

  function Chain(keys: seq<string>, v: Value): (r: Node)
    requires |keys| >= 1
    decreases |keys|
    ensures r.Branch? && r.children.Keys == {keys[0]}
  {
    if |keys| == 1 then Branch(map[keys[0] := Leaf(v)])
    else Branch(map[keys[0] := Chain(keys[1..], v)])
  }

  /** The partial holds exactly one leaf: the new value, at the dotted path. */
  lemma {:induction false} ChainLeaf(keys: seq<string>, v: Value, p: seq<string>, u: Value)
    requires |keys| >= 1
    decreases |keys|
    ensures Get(Chain(keys, v), p) == Some(Leaf(u)) <==> p == keys && u == v
  {
    var r := Chain(keys, v);
    if p != [] && p[0] == keys[0] {
      if |keys| > 1 {
        ChainLeaf(keys[1..], v, p[1..], u);
        assert p == keys <==> p[1..] == keys[1..] by {
          assert p == [p[0]] + p[1..] && keys == [keys[0]] + keys[1..];
        }
      } else {
        assert p == keys <==> p[1..] == [] by {
          assert p == [p[0]] + p[1..];
        }
      }
    }
  }

  /** Merging the partial into the stored preferences gives the same tree as the
      optimistic local update, whenever the two started from the same tree and
      the local update did not throw. */
  lemma {:induction false} MergeChainIsSetAt(n: Node, keys: seq<string>, v: Value)
    requires |keys| >= 1 && SetAt(n, keys, v).Some?
    decreases |keys|
    ensures n.Branch? && Merge(n.children, Chain(keys, v)) == Some(SetAt(n, keys, v).value.children)
  {
    var c := n.children;
    var k := keys[0];
    var src := Chain(keys, v);
    var sv := src.children[k];
    var m := SetAt(n, keys, v).value;
    if |keys| == 1 {
      assert MergeChild(c, k, sv) == Some(Leaf(v));
    } else {
      MergeChainIsSetAt(c[k], keys[1..], v);
      var sub := SetAt(c[k], keys[1..], v).value;
      assert MergeChild(c, k, sv) == Some(Branch(sub.children));
      assert m.children == c[k := sub];
    }
    assert forall j :: j in src.children ==> j == k;
    var merged := Merge(c, src);
    assert merged.Some?;
    assert merged.value == m.children;
  }

  // ---------------------------------------------------------------------------
  // unreadCount

  predicate IsUnread(n: Notification)
  {
    !n.read
  }

  /** `notifications.filter(n => !n.read).length`: the number of unread notifications. */
  function UnreadCount(ns: seq<Notification>): (r: nat)
    ensures r == Count(ns, IsUnread)
    ensures r == 0 <==> forall i :: 0 <= i < |ns| ==> ns[i].read
  {
    var unread := Filter(ns, IsUnread);
    FilterCount(ns, IsUnread);
    assert unread != [] ==> unread[0] in ns && !unread[0].read;
    |unread|
  }

  /** The count adds up over a split list. */
  lemma UnreadCountAppend(a: seq<Notification>, b: seq<Notification>)
    ensures UnreadCount(a + b) == UnreadCount(a) + UnreadCount(b)
  {
    FilterAppend(a, b, IsUnread);
  }

  /** After `markNotificationsRead` nothing is unread. */
  lemma MarkedReadUnread(ns: seq<Notification>)
    ensures UnreadCount(MarkedRead(ns)) == 0
  {
  }

  // ---------------------------------------------------------------------------
  // handlePrefChange as a state machine

  /** A debounce entry: what the timer will send, and the tree to revert to. */
  datatype PendingSave = PendingSave(keys: seq<string>, value: Value, snapshot: Node)

  datatype AuditEvent = AuditEvent(userId: string, action: string, key: string, value: Value)

  datatype ChangeOutcome = Ignored | PathError | Scheduled

  /** The settings whose changes are audited. */
  predicate IsAuditedPath(path: string)
  {
    path == "billing.autoSettleSmallPayouts" || path == "billing.consolidatedMonthlyInvoice"
  }

  /** `currentUser?.id || 'unknown'`. */
  function AuditUserId(id: Option<string>): (r: string)
    ensures r != ""
    ensures id.Some? && id.value != "" ==> r == id.value
    ensures id.None? || id.value == "" ==> r == "unknown"
  {
    if id.Some? && id.value != "" then id.value else "unknown"
  }

  class SettingsPanel {
    var preferences: Option<Node>
    /** `debounceTimers.current`: at most one entry per dotted path. */
    var pending: map<string, PendingSave>
    var audits: seq<AuditEvent>
    var currentUserId: Option<string>

    /** Every pending entry sends the keys of its own dotted path. */
    predicate Valid()
      reads this
    {
      forall path :: path in pending ==> pending[path].keys == Split(path, '.')
    }

    constructor (currentUserId: Option<string>)
      ensures Valid()
      ensures this.preferences == None && pending == map[] && audits == [] && this.currentUserId == currentUserId
    {
      this.preferences := None;
      pending := map[];
      audits := [];
      this.currentUserId := currentUserId;
    }

    /** `setPreferences(p)` once the preferences have been fetched. */
    method Load(p: Node)
      modifies this
      ensures preferences == Some(p)
      ensures pending == old(pending) && audits == old(audits) && currentUserId == old(currentUserId)
    {
      preferences := Some(p);
    }

    /** `handlePrefChange(path, value)`: with no preferences loaded nothing
        happens; a walk that throws changes nothing; otherwise the local tree is
        updated at once and a pending save for the path, holding the tree from
        before the change, replaces any earlier one for the same path. */
    method HandlePrefChange(path: string, value: Value) returns (r: ChangeOutcome)
      requires Valid()
      modifies this
      ensures Valid()
      ensures audits == old(audits) && currentUserId == old(currentUserId)
      ensures old(preferences).None? ==> r == Ignored && preferences == old(preferences) && pending == old(pending)
      ensures old(preferences).Some? && !Walkable(old(preferences).value, Split(path, '.')) ==>
        r == PathError && preferences == old(preferences) && pending == old(pending)
      ensures old(preferences).Some? && Walkable(old(preferences).value, Split(path, '.')) ==>
        r == Scheduled
        && preferences == SetAt(old(preferences).value, Split(path, '.'), value)
        && pending == old(pending)[path := PendingSave(Split(path, '.'), value, old(preferences).value)]
    {
      if preferences.None? {
        return Ignored;
      }
      var prev := preferences.value;
      var keys := Split(path, '.');
      SetAtDefined(prev, keys, value);
      var updated := SetAt(prev, keys, value);
      if updated.None? {
        return PathError;
      }
      preferences := updated;
      pending := pending[path := PendingSave(keys, value, prev)];
      r := Scheduled;
    }

    /** The debounce timer for `path` firing. `apiFails` stands for a rejected
        save: the local tree reverts to the entry's snapshot. Otherwise the
        one-path partial is sent to the store; a merge that throws leaves the
        callback waiting forever (`false`), and a completed save records an audit
        event for the billing settings. A settled callback deletes its entry. */
    method FlushPending(path: string, store: MockStore, apiFails: bool) returns (settled: bool)
      requires Valid() && path in pending
      modifies this, store
      ensures Valid()
      ensures currentUserId == old(currentUserId)
      ensures apiFails ==>
        settled && preferences == Some(old(pending)[path].snapshot)
        && audits == old(audits) && store.Snapshot() == old(store.Snapshot())
      ensures !apiFails ==> preferences == old(preferences)
      ensures !apiFails ==>
        (settled <==> Compatible(old(store.preferences), Chain(old(pending)[path].keys, old(pending)[path].value)))
      ensures !apiFails && settled ==>
        Merge(old(store.preferences), Chain(old(pending)[path].keys, old(pending)[path].value)) == Some(store.preferences)
      ensures !apiFails && settled ==> store.Snapshot() == old(store.Snapshot()).(preferences := store.preferences)
      ensures !apiFails && settled ==>
        audits == old(audits) + (if IsAuditedPath(path)
          then [AuditEvent(AuditUserId(currentUserId), "pref.change", path, old(pending)[path].value)] else [])
      ensures !apiFails && !settled ==> audits == old(audits) && store.Snapshot() == old(store.Snapshot())
      ensures settled ==> pending == old(pending) - {path}
      ensures !settled ==> pending == old(pending)
    {
      var entry := pending[path];
      if apiFails {
        preferences := Some(entry.snapshot);
        pending := pending - {path};
        return true;
      }
      var partial := Chain(entry.keys, entry.value);
      var saved := store.UpdateUserPreferences(partial);
      if saved.None? {
        return false;
      }
      if IsAuditedPath(path) {
        audits := audits + [AuditEvent(AuditUserId(currentUserId), "pref.change", path, entry.value)];
      }
      pending := pending - {path};
      settled := true;
    }
  }

  /** A change followed by its save, starting from a store that holds the same
      tree as the panel, leaves the store holding the panel's optimistic tree. */
  method ChangeThenSave(panel: SettingsPanel, store: MockStore, path: string, value: Value)
    returns (r: ChangeOutcome)
    requires panel.Valid() && panel.preferences == Some(Branch(store.preferences))
    modifies panel, store
    ensures r == Scheduled ==> panel.preferences == Some(Branch(store.preferences)) && path !in panel.pending
  {
    var keys := Split(path, '.');
    SetAtDefined(Branch(store.preferences), keys, value);
    r := panel.HandlePrefChange(path, value);
    if r == Scheduled {
      MergeChainIsSetAt(Branch(store.preferences), keys, value);
      MergeDefined(store.preferences, Chain(keys, value));
      var settled := panel.FlushPending(path, store, false);
    }
  }
}
