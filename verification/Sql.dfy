/** The few SQL notions every component leans on: nullable columns, row
    identifiers, and the three truth values of a condition over nullable columns. */
module Sql {

  /** Row identifiers. The source uses uuids and only ever compares them. */
  type Uuid = int

  /** A nullable column. */
  datatype Option<+T> = None | Some(value: T)

  /** The row of a table under a key, if there is one. */
  function Lookup<K, V>(table: map<K, V>, key: K): Option<V> {
    if key in table then Some(table[key]) else None
  }

  /** SQL truth values. An IF branch is taken only on `True`. */
  datatype Truth = True | False | Unknown {
    predicate Taken() { True? }

    function Or(other: Truth): Truth {
      if True? || other.True? then True else if False? && other.False? then False else Unknown
    }

    function And(other: Truth): Truth {
      if False? || other.False? then False else if True? && other.True? then True else Unknown
    }
  }

  function Known(b: bool): Truth { if b then True else False }

  /** `left <> right`: Unknown as soon as one side is NULL. */
  function Differs<T(==)>(left: Option<T>, right: Option<T>): Truth {
    if left.None? || right.None? then Unknown else Known(left.value != right.value)
  }

  /** `left < right` over nullable integers. */
  function Below(left: Option<int>, right: Option<int>): Truth {
    if left.None? || right.None? then Unknown else Known(left.value < right.value)
  }

  /** A non-empty set of ids has a smallest one. */
  lemma {:induction false} LeastExists(ids: set<Uuid>)
    requires |ids| > 0
    ensures exists c :: c in ids && forall other :: other in ids ==> c <= other
    decreases |ids|
  {
    if forall x :: x !in ids {
      assert false;
    }
    var any :| any in ids;
    var rest := ids - {any};
    assert forall other :: other in ids && other != any ==> other in rest;
    if |rest| == 0 {
      assert any in ids && forall other :: other in ids ==> any <= other;
    } else {
      LeastExists(rest);
      var low :| low in rest && forall other :: other in rest ==> low <= other;
      var c := if low <= any then low else any;
      assert c in ids && forall other :: other in ids ==> c <= other;
    }
  }

  lemma {:induction false} SubsetSize<T>(small: set<T>, large: set<T>)
    requires small <= large
    ensures |small| <= |large|
    decreases small
  {
    if x :| x in small {
      SubsetSize(small - {x}, large - {x});
    }
  }

  // ---------------------------------------------------------------------------
  // Text columns

  predicate Blank(s: string) {
    forall i :: 0 <= i < |s| ==> s[i] == ' '
  }

  /** Assigning to a column of limited width: excess spaces are cut off, any other excess
      is an error. */
  function Stored(s: string, width: nat): (r: Option<string>)
    ensures r.Some? ==> |r.value| <= width && r.value <= s
    ensures |s| <= width ==> r == Some(s)
  {
    if |s| <= width then Some(s) else if Blank(s[width..]) then Some(s[..width]) else None
  }

  /** The same for a nullable value, which is stored as it is when NULL. */
  predicate Fits(s: Option<string>, width: nat) {
    s.Some? ==> Stored(s.value, width).Some?
  }

  function Kept(s: Option<string>, width: nat): Option<string>
    requires Fits(s, width)
  {
    if s.Some? then Stored(s.value, width) else None
  }

  function NullIfEmpty(s: Option<string>): Option<string> {
    if s == Some("") then None else s
  }

  /** `trim`: spaces at both ends go. */
  function Trimmed(s: string): string {
    TrimmedLeft(TrimmedRight(s))
  }

  function TrimmedRight(s: string): string {
    if s != "" && s[|s| - 1] == ' ' then TrimmedRight(s[..|s| - 1]) else s
  }

  function TrimmedLeft(s: string): (r: string)
    ensures |r| <= |s| && (r != "" ==> !Blank(r))
  {
    if s != "" && s[0] == ' ' then TrimmedLeft(s[1..]) else s
  }

  /** What fits untrimmed fits trimmed. */
  lemma TrimmedFits(s: string, width: nat)
    requires Stored(s, width).Some?
    ensures |Trimmed(s)| <= width
  {
    TrimmedRightFits(s, width);
  }

  lemma {:induction false} TrimmedRightFits(s: string, width: nat)
    requires |s| <= width || Blank(s[width..])
    ensures |TrimmedRight(s)| <= width
    decreases |s|
  {
    if |s| > width {
      assert s[width..][|s| - 1 - width] == s[|s| - 1] == ' ';
      var shorter := s[..|s| - 1];
      forall i | 0 <= i < |shorter| - width ensures shorter[width..][i] == ' ' {
        assert shorter[width..][i] == s[width..][i];
      }
      TrimmedRightFits(shorter, width);
    } else if s != "" && s[|s| - 1] == ' ' {
      TrimmedRightFits(s[..|s| - 1], width);
    }
  }
}
