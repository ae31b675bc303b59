/** Version numbers of a vacancy's documents, listed newest first. */
module DocumentVersions {

  type CandidateId = nat

  /** Rows of one candidate. */
  function Mine(rows: seq<CandidateId>, c: CandidateId): nat {
    if rows == [] then 0 else Mine(rows[..|rows| - 1], c) + if rows[|rows| - 1] == c then 1 else 0
  }

  lemma {:induction false} MineSplit(front: seq<CandidateId>, back: seq<CandidateId>, c: CandidateId)
    ensures Mine(front + back, c) == Mine(front, c) + Mine(back, c)
  {
    if back == [] {
      assert front + back == front;
    } else {
      assert (front + back)[..|front + back| - 1] == front + back[..|back| - 1];
      MineSplit(front, back[..|back| - 1], c);
    }
  }

  ghost predicate Counts(m: map<CandidateId, nat>, rows: seq<CandidateId>) {
    forall c: CandidateId :: At(m, c) == Mine(rows, c)
  }

  function At(m: map<CandidateId, nat>, c: CandidateId): nat { if c in m then m[c] else 0 }

  /** Counting one more row of `c`, at either end. */
  lemma CountOneMore(m: map<CandidateId, nat>, rows: seq<CandidateId>, c: CandidateId)
    requires Counts(m, rows)
    ensures Counts(m[c := At(m, c) + 1], [c] + rows) && Counts(m[c := At(m, c) + 1], rows + [c])
  {
    var m' := m[c := At(m, c) + 1];
    forall d: CandidateId ensures At(m', d) == Mine([c] + rows, d) && At(m', d) == Mine(rows + [c], d) {
      MineSplit([c], rows, d);
      MineSplit(rows, [c], d);
      assert Mine([c], d) == if c == d then 1 else 0;
    }
  }

  lemma VersionByCounts(total: map<CandidateId, nat>, given: map<CandidateId, nat>, rows: seq<CandidateId>, i: nat)
    requires i < |rows| && Counts(total, rows) && Counts(given, rows[..i + 1])
    ensures rows[i] in total && rows[i] in given && given[rows[i]] <= total[rows[i]]
    ensures total[rows[i]] - given[rows[i]] + 1 == Mine(rows[i..], rows[i])
  {
    var c := rows[i];
    assert rows == rows[..i + 1] + rows[i + 1..] && rows[i..] == [c] + rows[i + 1..];
    assert rows[..i + 1] == rows[..i] + [c];
    MineSplit(rows[..i + 1], rows[i + 1..], c);
    MineSplit(rows[..i], [c], c);
    MineSplit([c], rows[i + 1..], c);
    assert At(total, c) == Mine(rows, c) && At(given, c) == Mine(rows[..i + 1], c);
  }

  /** Two passes: count each candidate's rows from the oldest up, then number the rows from the
      newest down. Every row is numbered by the rows of its candidate from it to the end. */
  method NumberVersions(rows: seq<CandidateId>) returns (versions: seq<nat>)
    ensures |versions| == |rows|
    ensures forall i | 0 <= i < |rows| :: versions[i] == Mine(rows[i..], rows[i])
  {
    var versionMap: map<CandidateId, nat> := map[];
    for i := |rows| downto 0
      invariant Counts(versionMap, rows[i..])
    {
      assert rows[i..] == [rows[i]] + rows[i + 1..];
      CountOneMore(versionMap, rows[i + 1..], rows[i]);
      versionMap := versionMap[rows[i] := At(versionMap, rows[i]) + 1];
    }
    assert rows[0..] == rows;

    var versionAssign: map<CandidateId, nat> := map[];
    versions := [];
    for i := 0 to |rows|
      invariant |versions| == i && Counts(versionAssign, rows[..i])
      invariant forall k | 0 <= k < i :: versions[k] == Mine(rows[k..], rows[k])
    {
      assert rows[..i + 1] == rows[..i] + [rows[i]];
      CountOneMore(versionAssign, rows[..i], rows[i]);
      versionAssign := versionAssign[rows[i] := At(versionAssign, rows[i]) + 1];
      VersionByCounts(versionMap, versionAssign, rows, i);
      versions := versions + [versionMap[rows[i]] - versionAssign[rows[i]] + 1];
    }
  }

  /** The version of the i-th row. */
  function VersionAt(rows: seq<CandidateId>, i: nat): nat
    requires i < |rows|
  {
    Mine(rows[i..], rows[i])
  }

  lemma OlderIsSmaller(rows: seq<CandidateId>, i: nat, j: nat)
    requires i < j < |rows| && rows[i] == rows[j]
    ensures VersionAt(rows, j) < VersionAt(rows, i)
  {
    assert rows[i..] == ([rows[i]] + rows[i + 1..j]) + rows[j..];
    MineSplit([rows[i]] + rows[i + 1..j], rows[j..], rows[i]);
    MineSplit([rows[i]], rows[i + 1..j], rows[i]);
  }

  /** Every number up to the candidate's row count is used. */
  lemma {:induction false} EachVersionUsed(rows: seq<CandidateId>, c: CandidateId, v: nat) returns (i: nat)
    requires 1 <= v <= Mine(rows, c)
    ensures i < |rows| && rows[i] == c && VersionAt(rows, i) == v
    decreases |rows|
  {
    assert rows == [rows[0]] + rows[1..];
    MineSplit([rows[0]], rows[1..], c);
    if v <= Mine(rows[1..], c) {
      var k := EachVersionUsed(rows[1..], c, v);
      i := k + 1;
      assert rows[i..] == rows[1..][i - 1..];
    } else {
      i := 0;
      assert rows[0..] == rows;
    }
  }

  ghost predicate Used(rows: seq<CandidateId>, c: CandidateId, v: nat) {
    exists i :: 0 <= i < |rows| && rows[i] == c && VersionAt(rows, i) == v
  }

  /** For each candidate the versions are exactly 1..n, each used by one row, and the newest row
      carries n. */
  lemma VersionsAreOneToN(rows: seq<CandidateId>, c: CandidateId)
    ensures forall v: nat :: Used(rows, c, v) <==> 1 <= v <= Mine(rows, c)
    ensures forall i, j | 0 <= i < j < |rows| && rows[i] == c && rows[j] == c :: VersionAt(rows, j) < VersionAt(rows, i)
  {
    forall v: nat | 1 <= v <= Mine(rows, c) ensures Used(rows, c, v) {
      var i := EachVersionUsed(rows, c, v);
    }
    forall i | 0 <= i < |rows| && rows[i] == c ensures 1 <= VersionAt(rows, i) <= Mine(rows, c) {
      assert rows == rows[..i] + rows[i..] && rows[i..] == [c] + rows[i + 1..];
      MineSplit(rows[..i], rows[i..], c);
      MineSplit([c], rows[i + 1..], c);
    }
    forall i, j | 0 <= i < j < |rows| && rows[i] == c && rows[j] == c ensures VersionAt(rows, j) < VersionAt(rows, i) {
      OlderIsSmaller(rows, i, j);
    }
  }

  /** The row with no older row of its candidate is version 1. */
  lemma OldestIsOne(rows: seq<CandidateId>, i: nat)
    requires i < |rows|
    ensures VersionAt(rows, i) == 1 <==> forall j | i < j < |rows| :: rows[j] != rows[i]
  {
    if VersionAt(rows, i) != 1 {
      assert rows[i..] == [rows[i]] + rows[i + 1..];
      MineSplit([rows[i]], rows[i + 1..], rows[i]);
      var k := EachVersionUsed(rows[i + 1..], rows[i], 1);
      assert rows[i + 1 + k] == rows[i];
    } else {
      forall j | i < j < |rows| ensures rows[j] != rows[i] {
        if rows[j] == rows[i] {
          OlderIsSmaller(rows, i, j);
          assert rows[j..] == [rows[j]] + rows[j + 1..];
          MineSplit([rows[j]], rows[j + 1..], rows[j]);
        }
      }
    }
  }
}
