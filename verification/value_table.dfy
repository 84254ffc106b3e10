/**
 * The value table `Q`: a dense five-dimensional array of reals indexed by the
 * four bin indices of a discretized state and an action index, stored as its
 * row-major (C order) flat buffer, the layout NumPy gives `np.zeros`. Its
 * shape is fixed when it is created.
 */
module ValueTable {
  import opened Discretizer

  /** The table's shape: boundaries per state component (10, 10, 20, 10)
      and number of actions (3). */
  const N0: nat := 10
  const N1: nat := 10
  const N2: nat := 20
  const N3: nat := 10
  const NA: nat := 3

  /** Number of discretized states. */
  const CellCount: nat := N0 * N1 * N2 * N3

  /** Number of entries of the table. */
  const Size: nat := CellCount * NA

  predicate InGrid(k: Key)
  {
    k.x < N0 && k.xDot < N1 && k.theta < N2 && k.thetaDot < N3
  }

  /** Position of a discretized state in row-major order. */
  function Rank(k: Key): (r: nat)
    requires InGrid(k)
    ensures r < CellCount
  {
    ((k.x * N1 + k.xDot) * N2 + k.theta) * N3 + k.thetaDot
  }

  /** Position of entry `Q[k][a]` in the flat buffer. */
  function Offset(k: Key, a: nat): (o: nat)
    requires InGrid(k) && a < NA
    ensures o < Size
  {
    Rank(k) * NA + a
  }

  /** Row-major order is lexicographic order on the four indices. */
  predicate LexLess(k: Key, k': Key)
  {
    k.x < k'.x ||
    (k.x == k'.x && (k.xDot < k'.xDot ||
    (k.xDot == k'.xDot && (k.theta < k'.theta ||
    (k.theta == k'.theta && k.thetaDot < k'.thetaDot)))))
  }

  /** Row-major ranks order the grid lexicographically; in particular two
      different states never share a rank. */
  lemma RankOrder(k: Key, k': Key)
    requires InGrid(k) && InGrid(k')
    ensures Rank(k) < Rank(k') <==> LexLess(k, k')
    ensures Rank(k) == Rank(k') <==> k == k'
  {
  }

  /** Two different entries of the grid never share a position. */
  lemma OffsetInjective(k: Key, a: nat, k': Key, a': nat)
    requires InGrid(k) && a < NA && InGrid(k') && a' < NA
    ensures Offset(k, a) == Offset(k', a') <==> k == k' && a == a'
  {
    RankOrder(k, k');
  }

  /** The row `Q[k]`: the values of all actions in state `k`. */
  function RowOf(cells: seq<real>, k: Key): (row: seq<real>)
    requires |cells| == Size && InGrid(k)
    ensures |row| == NA
    ensures forall a :: 0 <= a < NA ==> row[a] == cells[Offset(k, a)]
  {
    cells[Rank(k) * NA .. Rank(k) * NA + NA]
  }

  /** `np.argmax`: the first index attaining the maximum of a non-empty row. */
  function ArgMax(row: seq<real>): (k: nat)
    requires |row| > 0
    ensures k < |row|
    ensures forall j :: 0 <= j < |row| ==> row[j] <= row[k]
    ensures forall j :: 0 <= j < k ==> row[j] < row[k]
  {
    FirstMaxOfPrefix(row, |row|)
  }

  /** The first index attaining the maximum of `row[..n]`, scanning left to
      right and moving only on a strictly larger value. */
  function FirstMaxOfPrefix(row: seq<real>, n: nat): (k: nat)
    requires 0 < n <= |row|
    ensures k < n
    ensures forall j :: 0 <= j < n ==> row[j] <= row[k]
    ensures forall j :: 0 <= j < k ==> row[j] < row[k]
  {
    if n == 1 then 0
    else
      var k := FirstMaxOfPrefix(row, n - 1);
      if row[k] < row[n - 1] then n - 1 else k
  }

  /** At most one index is the first to attain the maximum, so `ArgMax` is the
      only index with the properties its contract states. */
  lemma FirstMaxUnique(row: seq<real>, k: nat, k': nat)
    requires k < |row| && k' < |row|
    requires forall j :: 0 <= j < |row| ==> row[j] <= row[k] && row[j] <= row[k']
    requires forall j :: 0 <= j < k ==> row[j] < row[k]
    requires forall j :: 0 <= j < k' ==> row[j] < row[k']
    ensures k == k'
  {
    assert row[k] <= row[k'] && row[k'] <= row[k];
  }

  /** `np.max` of a non-empty row: no element exceeds it. */
  function Max(row: seq<real>): (m: real)
    requires |row| > 0
    ensures forall j :: 0 <= j < |row| ==> row[j] <= m
  {
    row[ArgMax(row)]
  }

  /** The maximum is attained: it is an element of the row, so it is the
      least upper bound of the row. */
  lemma MaxAttained(row: seq<real>, bound: real)
    requires |row| > 0
    ensures Max(row) in row
    ensures (forall j :: 0 <= j < |row| ==> row[j] <= bound) ==> Max(row) <= bound
  {
  }

  /** The Q-learning update as a function of the whole table: entry `Q[s][a]`
      becomes `(1 - alpha) * Q[s][a] + alpha * (r + gamma * max(Q[ns]))`, both
      `Q[s][a]` and `max(Q[ns])` read from the table before the write. */
  function QUpdate(cells: seq<real>, s: Key, a: nat, r: real, ns: Key, alpha: real, gamma: real): (next: seq<real>)
    requires |cells| == Size && InGrid(s) && a < NA && InGrid(ns)
    ensures |next| == |cells|
  {
    var o := Offset(s, a);
    cells[o := Blend(alpha, cells[o], r + gamma * Max(RowOf(cells, ns)))]
  }

  /** The learning-rate weighted average of the current value and the
      target. */
  function Blend(alpha: real, current: real, target: real): real
  {
    (1.0 - alpha) * current + alpha * target
  }

  /** The update writes `Q[s][a]` with the closed-form value, computed from
      the old table even when `ns == s`. */
  lemma QUpdateWrites(cells: seq<real>, s: Key, a: nat, r: real, ns: Key, alpha: real, gamma: real)
    requires |cells| == Size && InGrid(s) && a < NA && InGrid(ns)
    ensures RowOf(QUpdate(cells, s, a, r, ns, alpha, gamma), s)[a]
         == (1.0 - alpha) * RowOf(cells, s)[a] + alpha * (r + gamma * Max(RowOf(cells, ns)))
  {
    assert RowOf(cells, s)[a] == cells[Offset(s, a)];
  }

  /** The update leaves every other entry of the table unchanged. */
  lemma QUpdateFrame(cells: seq<real>, s: Key, a: nat, r: real, ns: Key, alpha: real, gamma: real)
    requires |cells| == Size && InGrid(s) && a < NA && InGrid(ns)
    ensures forall k, b :: InGrid(k) && 0 <= b < NA && (k != s || b != a) ==>
              RowOf(QUpdate(cells, s, a, r, ns, alpha, gamma), k)[b] == RowOf(cells, k)[b]
  {
    forall k, b | InGrid(k) && 0 <= b < NA && (k != s || b != a)
      ensures RowOf(QUpdate(cells, s, a, r, ns, alpha, gamma), k)[b] == RowOf(cells, k)[b]
    {
      QUpdateKeeps(cells, s, a, r, ns, alpha, gamma, k, b);
    }
  }

  lemma QUpdateKeeps(cells: seq<real>, s: Key, a: nat, r: real, ns: Key, alpha: real, gamma: real, k: Key, b: nat)
    requires |cells| == Size && InGrid(s) && a < NA && InGrid(ns)
    requires InGrid(k) && b < NA && (k != s || b != a)
    ensures RowOf(QUpdate(cells, s, a, r, ns, alpha, gamma), k)[b] == RowOf(cells, k)[b]
  {
    OffsetInjective(k, b, s, a);
  }

  predicate AllAtMost(cells: seq<real>, bound: real)
  {
    forall i :: 0 <= i < |cells| ==> cells[i] <= bound
  }

  /** The update is a convex combination of the old entry and the target
      `r + gamma * max(Q[ns])`, so a table bounded by `bound` stays bounded
      when the reward is at most `(1 - gamma) * bound`. */
  lemma QUpdateBounded(cells: seq<real>, s: Key, a: nat, r: real, ns: Key, alpha: real, gamma: real, bound: real)
    requires |cells| == Size && InGrid(s) && a < NA && InGrid(ns)
    requires 0.0 <= alpha <= 1.0 && 0.0 <= gamma
    requires AllAtMost(cells, bound) && r <= (1.0 - gamma) * bound
    ensures AllAtMost(QUpdate(cells, s, a, r, ns, alpha, gamma), bound)
  {
    var o := Offset(s, a);
    var row := RowOf(cells, ns);
    assert forall j :: 0 <= j < |row| ==> row[j] <= bound;
    MaxAttained(row, bound);
    ConvexCombinationBounded(alpha, gamma, cells[o], r, Max(row), bound);
  }

  /** `(1 - alpha) * x + alpha * (r + gamma * m)` stays at most `bound` when
      `x` and `m` do and `r` is at most `(1 - gamma) * bound`. */
  lemma ConvexCombinationBounded(alpha: real, gamma: real, x: real, r: real, m: real, bound: real)
    requires 0.0 <= alpha <= 1.0 && 0.0 <= gamma
    requires x <= bound && m <= bound && r <= (1.0 - gamma) * bound
    ensures (1.0 - alpha) * x + alpha * (r + gamma * m) <= bound
  {
    assert gamma * m <= gamma * bound;
    assert (1.0 - alpha) * x <= (1.0 - alpha) * bound;
    assert alpha * (r + gamma * m) <= alpha * bound;
  }

  /** One record of the exported table: the four indices of a discretized
      state followed by the values of all actions in that state. */
  datatype Record = Record(index: Key, values: seq<real>)

  /** The table object. Its flat buffer, and so its shape, is fixed for its
      lifetime; only the entries change. */
  class QTable {
    const data: array<real>

    ghost predicate Valid()
    {
      data.Length == Size
    }

    /** `np.zeros((10, 10, 20, 10, 3))`. */
    constructor ()
      ensures Valid() && fresh(data)
      ensures forall i :: 0 <= i < data.Length ==> data[i] == 0.0
    {
      data := new real[Size](_ => 0.0);
    }

    /** `np.argmax(Q[s])`: an action whose value in state `s` no other action
        exceeds, and the first such action. Changes nothing. */
    method Greedy(s: Key) returns (a: nat)
      requires Valid() && InGrid(s)
      ensures a < NA
      ensures forall b :: 0 <= b < NA ==> data[Offset(s, b)] <= data[Offset(s, a)]
      ensures forall b :: 0 <= b < a ==> data[Offset(s, b)] < data[Offset(s, a)]
    {
      a := ArgMax(RowOf(data[..], s));
    }

    /** `Q[s][a] = (1 - alpha) * Q[s][a] + alpha * (r + gamma * np.max(Q[ns]))`:
        the right-hand side is evaluated on the table before the write. */
    method Update(s: Key, a: nat, r: real, ns: Key, alpha: real, gamma: real)
      requires Valid() && InGrid(s) && a < NA && InGrid(ns)
      modifies data
      ensures data[..] == QUpdate(old(data[..]), s, a, r, ns, alpha, gamma)
    {
      var o := Offset(s, a);
      data[o] := Blend(alpha, data[o], r + gamma * Max(RowOf(data[..], ns)));
    }

    /** Enumerates every cell of the table in row-major order (`np.ndenumerate`
        over the four state dimensions) and emits, for each, its indices and
        the values of all actions. Changes nothing. */
    method Export() returns (records: seq<Record>)
      requires Valid()
      ensures |records| == CellCount
      ensures forall j :: 0 <= j < |records| ==>
                InGrid(records[j].index) && Rank(records[j].index) == j &&
                records[j].values == RowOf(data[..], records[j].index)
    {
      records := [];
      for i0 := 0 to N0
        invariant |records| == i0 * N1 * N2 * N3
        invariant forall j :: 0 <= j < |records| ==>
                    InGrid(records[j].index) && Rank(records[j].index) == j &&
                    records[j].values == RowOf(data[..], records[j].index)
      {
        for i1 := 0 to N1
          invariant |records| == (i0 * N1 + i1) * N2 * N3
          invariant forall j :: 0 <= j < |records| ==>
                      InGrid(records[j].index) && Rank(records[j].index) == j &&
                      records[j].values == RowOf(data[..], records[j].index)
        {
          for i2 := 0 to N2
            invariant |records| == ((i0 * N1 + i1) * N2 + i2) * N3
            invariant forall j :: 0 <= j < |records| ==>
                        InGrid(records[j].index) && Rank(records[j].index) == j &&
                        records[j].values == RowOf(data[..], records[j].index)
          {
            for i3 := 0 to N3
              invariant |records| == ((i0 * N1 + i1) * N2 + i2) * N3 + i3
              invariant forall j :: 0 <= j < |records| ==>
                          InGrid(records[j].index) && Rank(records[j].index) == j &&
                          records[j].values == RowOf(data[..], records[j].index)
            {
              var k := Key(i0, i1, i2, i3);
              var base := Rank(k) * NA;
              records := records + [Record(k, data[base .. base + NA])];
            }
          }
        }
      }
    }
  }

  /** The exported records are exactly the cells of the grid, each once, in
      lexicographic (row-major) order of their indices. */
  lemma ExportIsRowMajor(records: seq<Record>)
    requires |records| == CellCount
    requires forall j :: 0 <= j < |records| ==> InGrid(records[j].index) && Rank(records[j].index) == j
    ensures forall k :: InGrid(k) ==> records[Rank(k)].index == k
    ensures forall i, j :: 0 <= i < j < |records| ==> LexLess(records[i].index, records[j].index)
  {
    forall k | InGrid(k)
      ensures records[Rank(k)].index == k
    {
      RankOrder(records[Rank(k)].index, k);
    }
    forall i, j | 0 <= i < j < |records|
      ensures LexLess(records[i].index, records[j].index)
    {
      RankOrder(records[i].index, records[j].index);
    }
  }
}
