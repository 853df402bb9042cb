/** Laws of the membership tables: the credential loop of a merge is a bijection, and
    memberships with their links and credentials behave as a union-find structure. */
module MembershipLaws {
  import opened Sql
  import opened Forest
  import opened MembershipAuthority

  // ---------------------------------------------------------------------------
  // The credential loop

  /** Every entry names a live credential of the source, no two the same one, and
      carries an acceptable envelope. */
  ghost predicate NamesEach(credentials: map<Uuid, Credential>, source: Uuid, entries: seq<Entry>) {
    && (forall i :: 0 <= i < |entries| ==>
          && entries[i].envelope.Some? && entries[i].names.Some? && LiveAt(credentials, entries[i].names.value, source))
    && (forall i, j :: 0 <= i < j < |entries| ==> entries[i].names != entries[j].names)
  }

  function Named(entries: seq<Entry>): set<Uuid> {
    set i | 0 <= i < |entries| && entries[i].names.Some? :: entries[i].names.value
  }

  /** The loop gets through exactly on lists that name each credential once. */
  lemma {:induction false} ReencryptsIffNamesEach(credentials: map<Uuid, Credential>, source: Uuid, target: Uuid,
        entries: seq<Entry>)
    requires source != target
    ensures Reencrypt(credentials, source, target, entries).Some? <==> NamesEach(credentials, source, entries)
    decreases |entries|
  {
    if entries != [] {
      var e := entries[0];
      if e.envelope.Some? && e.names.Some? && LiveAt(credentials, e.names.value, source) {
        var k := e.names.value;
        var next := credentials[k := credentials[k].(membership := target, envelope := e.envelope.value)];
        ReencryptsIffNamesEach(next, source, target, entries[1..]);
        if NamesEach(next, source, entries[1..]) {
          NamesOneMore(credentials, source, target, entries, next);
        }
        if NamesEach(credentials, source, entries) {
          forall i | 0 <= i < |entries[1..]|
            ensures entries[1..][i].names.Some? && LiveAt(next, entries[1..][i].names.value, source)
          {
            assert entries[1..][i] == entries[i + 1];
            assert entries[0].names != entries[i + 1].names;
          }
        }
      }
    }
  }

  lemma NamesOneMore(credentials: map<Uuid, Credential>, source: Uuid, target: Uuid, entries: seq<Entry>,
                     next: map<Uuid, Credential>)
    requires source != target && entries != [] && entries[0].envelope.Some? && entries[0].names.Some?
    requires LiveAt(credentials, entries[0].names.value, source)
    requires var k := entries[0].names.value;
             next == credentials[k := credentials[k].(membership := target, envelope := entries[0].envelope.value)]
    requires NamesEach(next, source, entries[1..])
    ensures NamesEach(credentials, source, entries)
  {
    forall i | 0 <= i < |entries|
      ensures entries[i].envelope.Some? && entries[i].names.Some? && LiveAt(credentials, entries[i].names.value, source)
      ensures i > 0 ==> entries[i].names != entries[0].names
    {
      if i > 0 {
        assert entries[i] == entries[1..][i - 1];
      }
    }
    forall i, j | 0 <= i < j < |entries| ensures entries[i].names != entries[j].names {
      if i > 0 {
        assert entries[1..][i - 1].names != entries[1..][j - 1].names;
      }
    }
  }

  /** What the loop leaves: the named credentials moved, each with its own entry's
      envelope, and every other one untouched. */
  lemma {:induction false} ReencryptedEach(credentials: map<Uuid, Credential>, source: Uuid, target: Uuid,
        entries: seq<Entry>,
                                           after: map<Uuid, Credential>)
    requires source != target && Reencrypt(credentials, source, target, entries) == Some(after)
    ensures after.Keys == credentials.Keys
    ensures forall i :: 0 <= i < |entries| ==>
              && entries[i].names.Some? && entries[i].envelope.Some? && entries[i].names.value in credentials
              && after[entries[i].names.value]
                 == credentials[entries[i].names.value].(membership := target, envelope := entries[i].envelope.value)
    ensures forall k :: k in credentials && k !in Named(entries) ==> after[k] == credentials[k]
    decreases |entries|
  {
    ReencryptsIffNamesEach(credentials, source, target, entries);
    if entries != [] {
      var k := entries[0].names.value;
      var next := credentials[k := credentials[k].(membership := target, envelope := entries[0].envelope.value)];
      var rest := entries[1..];
      ReencryptedEach(next, source, target, rest, after);
      NamedSplits(entries);
      forall i | 0 <= i < |rest| ensures rest[i].names != Some(k) {
        assert rest[i] == entries[i + 1];
      }
      forall i | 0 <= i < |entries|
        ensures after[entries[i].names.value]
                == credentials[entries[i].names.value].(membership := target, envelope := entries[i].envelope.value)
      {
        if i > 0 {
          assert entries[i] == rest[i - 1];
          assert entries[0].names != entries[i].names;
        }
      }
    }
  }

  lemma NamedSplits(entries: seq<Entry>)
    requires entries != [] && entries[0].names.Some?
    ensures Named(entries) == {entries[0].names.value} + Named(entries[1..])
  {
    forall k ensures k in Named(entries) <==> k == entries[0].names.value || k in Named(entries[1..]) {
      if k in Named(entries[1..]) {
        var i :| 0 <= i < |entries[1..]| && entries[1..][i].names == Some(k);
        assert entries[i + 1].names == Some(k);
      }
      if k in Named(entries) {
        var i :| 0 <= i < |entries| && entries[i].names == Some(k);
        assert i == 0 || entries[1..][i - 1].names == Some(k);
      }
    }
  }

  lemma {:induction false} DistinctNamesCount(entries: seq<Entry>)
    requires forall i :: 0 <= i < |entries| ==> entries[i].names.Some?
    requires forall i, j :: 0 <= i < j < |entries| ==> entries[i].names != entries[j].names
    ensures |Named(entries)| == |entries|
    decreases |entries|
  {
    if entries != [] {
      var rest := entries[1..];
      DistinctNamesCount(rest);
      NamedSplits(entries);
      forall i | 0 <= i < |rest| ensures rest[i].names != entries[0].names {
        assert rest[i] == entries[i + 1];
      }
    }
  }

  lemma SameSizeSubset<T>(small: set<T>, large: set<T>)
    requires small <= large && |small| == |large|
    ensures small == large
  {
    if x :| x in large && x !in small {
      SubsetSize(small, large - {x});
      assert false;
    }
  }

  /** Exactly one entry names the credential, and it carries its new envelope. */
  ghost predicate MovedOnce(after: map<Uuid, Credential>, entries: seq<Entry>, k: Uuid) {
    exists i :: 0 <= i < |entries| && entries[i].names == Some(k) && k in after
                && entries[i].envelope == Some(after[k].envelope) && OnlyNaming(entries, k, i)
  }

  ghost predicate OnlyNaming(entries: seq<Entry>, k: Uuid, i: int) {
    forall j :: 0 <= j < |entries| && entries[j].names == Some(k) ==> j == i
  }

  lemma NamedMovedOnce(credentials: map<Uuid, Credential>, source: Uuid, target: Uuid, entries: seq<Entry>,
                       after: map<Uuid, Credential>, k: Uuid)
    requires source != target && Reencrypt(credentials, source, target, entries) == Some(after) && k in Named(entries)
    ensures MovedOnce(after, entries, k)
    ensures k in credentials && after[k] == credentials[k].(membership := target, envelope := after[k].envelope)
  {
    ReencryptsIffNamesEach(credentials, source, target, entries);
    ReencryptedEach(credentials, source, target, entries, after);
    var i :| 0 <= i < |entries| && entries[i].names == Some(k);
    assert OnlyNaming(entries, k, i);
  }

  /** With as many entries as the source has live credentials, a finished loop has
      moved every one of them, exactly once: entries and credentials are in bijection,
      even when different keys of the request may denote one uuid. */
  lemma LoopIsBijection(credentials: map<Uuid, Credential>, source: Uuid, target: Uuid, entries: seq<Entry>,
                        after: map<Uuid, Credential>)
    requires source != target && Reencrypt(credentials, source, target, entries) == Some(after)
    requires |entries| == |LiveCredentials(credentials, source)|
    ensures Named(entries) == LiveCredentials(credentials, source)
    ensures LiveCredentials(after, source) == {}
    ensures LiveCredentials(after, target)
        == LiveCredentials(credentials, target) + LiveCredentials(credentials, source)
    ensures forall k :: k in LiveCredentials(credentials, source) ==> MovedOnce(after, entries, k)
    ensures forall k ::
        k in credentials && k !in LiveCredentials(credentials, source) ==> k in after && after[k] == credentials[k]
  {
    NamedAreLive(credentials, source, target, entries);
    ReencryptedEach(credentials, source, target, entries, after);
    forall k | k in Named(entries)
      ensures MovedOnce(after, entries, k) && k in after
      ensures k in credentials && after[k] == credentials[k].(membership := target, envelope := after[k].envelope)
    {
      NamedMovedOnce(credentials, source, target, entries, after, k);
    }
    forall k ensures k !in LiveCredentials(after, source) {}
    forall k ensures k in LiveCredentials(after, target)
                     <==> k in LiveCredentials(credentials, target) || k in LiveCredentials(credentials, source) {}
  }

  lemma NamedAreLive(credentials: map<Uuid, Credential>, source: Uuid, target: Uuid, entries: seq<Entry>)
    requires source != target && Reencrypt(credentials, source, target, entries).Some?
    requires |entries| == |LiveCredentials(credentials, source)|
    ensures Named(entries) == LiveCredentials(credentials, source)
  {
    ReencryptsIffNamesEach(credentials, source, target, entries);
    DistinctNamesCount(entries);
    assert Named(entries) <= LiveCredentials(credentials, source);
    SameSizeSubset(Named(entries), LiveCredentials(credentials, source));
  }
}
