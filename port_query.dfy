/**
 * Finding the ports of the source gateway: the gateway's uuid turned back into the
 * database's raw form, the direct query on mgcpdevicemember, and get_column over the
 * rows the query returns.
 */
module PortQuery {
  import opened Wrappers
  import opened Text
  import opened Axl

  /** Lower-cases the uuid and drops its first and last characters, as the slice [1:-1] does. */
  function RawUuid(uuid: string): (raw: string)
    ensures |raw| == if |uuid| >= 2 then |uuid| - 2 else 0
    ensures forall i | 0 <= i < |raw| :: raw[i] == LowerChar(uuid[i + 1])
  {
    var lowered := Lower(uuid);
    if |lowered| >= 2 then lowered[1..|lowered| - 1] else ""
  }

  /** The form regular AXL answers use: upper-case and surrounded by braces. */
  function AxlUuid(raw: string): string
  {
    "{" + Upper(raw) + "}"
  }

  /** RawUuid undoes AXL's normalisation of any raw (lower-case) uuid. */
  lemma RawUuidUndoesAxlForm(raw: string)
    requires forall i | 0 <= i < |raw| :: !IsUpper(raw[i])
    ensures RawUuid(AxlUuid(raw)) == raw
  {
  }

  lemma RawUuidExample()
    ensures RawUuid("{ABC-1}") == "abc-1"
  {
  }

  const MemberQueryPrefix: string := "SELECT * FROM mgcpdevicemember WHERE fkmgcp='"

  /** The direct query for the endpoints belonging to the gateway with this raw uuid. */
  function MemberQuery(raw: string): string
  {
    MemberQueryPrefix + raw + "'"
  }

  /** The uuid a member query asks about, if `sql` has that shape. */
  function QueryKey(sql: string): Option<string>
  {
    var n := |MemberQueryPrefix|;
    if |sql| > n && sql[..n] == MemberQueryPrefix && sql[|sql| - 1] == '\'' then Some(sql[n..|sql| - 1])
    else None
  }

  /** The query names exactly the uuid it was built from. */
  lemma QueryKeyOfMemberQuery(raw: string)
    ensures QueryKey(MemberQuery(raw)) == Some(raw)
  {
  }

  /** The elements of `row` whose tag is `tag`, in order (the filter in get_column). */
  function Matching(tag: string, row: Row): (r: seq<Element>)
    ensures forall k | 0 <= k < |r| :: r[k].tag == tag && r[k] in row
  {
    if row == [] then []
    else (if row[0].tag == tag then [row[0]] else []) + Matching(tag, row[1..])
  }

  /** get_column: the text of the first element with the tag, or None when there is none. */
  function GetColumn(tag: string, row: Row): Option<string>
  {
    var found := Matching(tag, row);
    if |found| > 0 then found[0].text else None
  }

  lemma {:induction false} MatchingAppend(tag: string, a: Row, b: Row)
    ensures Matching(tag, a + b) == Matching(tag, a) + Matching(tag, b)
  {
    if a != [] {
      assert (a + b)[1..] == a[1..] + b;
      MatchingAppend(tag, a[1..], b);
    } else {
      assert a + b == b;
    }
  }

  lemma {:induction false} MatchingEmpty(tag: string, row: Row)
    ensures Matching(tag, row) == [] <==> forall i | 0 <= i < |row| :: row[i].tag != tag
  {
    if row != [] {
      MatchingEmpty(tag, row[1..]);
      assert forall i | 1 <= i < |row| :: row[i] == row[1..][i - 1];
    }
  }

  lemma {:induction false} MatchingStartsAtFirst(tag: string, row: Row, i: nat)
    requires i < |row| && row[i].tag == tag
    requires forall j | 0 <= j < i :: row[j].tag != tag
    ensures Matching(tag, row) != [] && Matching(tag, row)[0] == row[i]
  {
    if i > 0 {
      MatchingStartsAtFirst(tag, row[1..], i - 1);
    }
  }

  /** get_column returns the text of the first element carrying the tag. */
  lemma GetColumnFirstMatch(tag: string, row: Row, i: nat)
    requires i < |row| && row[i].tag == tag
    requires forall j | 0 <= j < i :: row[j].tag != tag
    ensures GetColumn(tag, row) == row[i].text
  {
    MatchingStartsAtFirst(tag, row, i);
  }

  /**
   * get_column returns None exactly when no element carries the tag, provided every
   * element has text (an empty element reads as None as well).
   */
  lemma GetColumnNone(tag: string, row: Row)
    ensures (forall i | 0 <= i < |row| :: row[i].tag != tag) ==> GetColumn(tag, row) == None
    ensures (forall i | 0 <= i < |row| :: row[i].text.Some?) ==>
      (GetColumn(tag, row) == None <==> forall i | 0 <= i < |row| :: row[i].tag != tag)
  {
    MatchingEmpty(tag, row);
  }

  /** Elements after the first match never change what get_column returns. */
  lemma GetColumnIgnoresLater(tag: string, row: Row, later: Row)
    requires exists i | 0 <= i < |row| :: row[i].tag == tag
    ensures GetColumn(tag, row + later) == GetColumn(tag, row)
  {
    MatchingAppend(tag, row, later);
    MatchingEmpty(tag, row);
  }
}
