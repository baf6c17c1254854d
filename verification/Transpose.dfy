/** The column filter: byte i of every record side by side, and back. */
module Transpose {
  import opened Bytes
  import opened BitOps

  /** The filter leaves alone what is not a whole number of records of two bytes
      or more. */
  predicate Applies(d: bytes, rs: nat) { rs > 1 && |d| % rs == 0 }

  /** Where byte k of the transposed data comes from: column k/n, record k%n. */
  function Source(len: nat, rs: nat, k: nat): (j: nat)
    requires rs > 0 && len % rs == 0 && k < len
    ensures j < len
  {
    var n := len / rs;
    Rows(len, rs, k);
    k % n * rs + k / n
  }

  /** Where byte j of the records is in the transposed data: column j%rs. */
  function Target(len: nat, rs: nat, j: nat): (k: nat)
    requires rs > 0 && len % rs == 0 && j < len
    ensures k < len
  {
    Cols(len, rs, j);
    j % rs * (len / rs) + j / rs
  }

  lemma Rows(len: nat, rs: nat, k: nat)
    requires rs > 0 && len % rs == 0 && k < len
    ensures len / rs > 0 && k / (len / rs) < rs && k % (len / rs) * rs + k / (len / rs) < len
  {
    var n := len / rs;
    assert len == rs * n;
    assert n > 0 by { assert rs * 0 == 0; }
    InGrid(rs, n, k);
  }

  lemma Cols(len: nat, rs: nat, j: nat)
    requires rs > 0 && len % rs == 0 && j < len
    ensures len / rs > 0 && j / rs < len / rs && j % rs * (len / rs) + j / rs < len
  {
    var n := len / rs;
    assert len == rs * n && rs * n == n * rs;
    assert n > 0 by { assert rs * 0 == 0; }
    InGrid(n, rs, j);
  }

  /** A number below a*b, cut into rows of b, and the same cell counted by columns. */
  lemma InGrid(a: nat, b: nat, k: nat)
    requires b > 0 && k < a * b
    ensures k / b < a && k % b * a + k / b < a * b
  {
    var c, r := k / b, k % b;
    assert k == b * c + r;
    assert c < a by {
      if c >= a {
        assert a * b == b * a;
        MulMono(b, a, c);
        assert false;
      }
    }
    MulMono(a, r, b - 1);
    assert a * (b - 1) == a * b - a && a * r == r * a;
  }

  function Transposed(d: bytes, rs: nat): (out: bytes)
    ensures |out| == |d|
  {
    if !Applies(d, rs) then d else seq(|d|, k requires 0 <= k < |d| => d[Source(|d|, rs, k)])
  }

  function Detransposed(d: bytes, rs: nat): (out: bytes)
    ensures |out| == |d|
  {
    if !Applies(d, rs) then d else seq(|d|, j requires 0 <= j < |d| => d[Target(|d|, rs, j)])
  }

  lemma SourceOfTarget(len: nat, rs: nat, j: nat)
    requires rs > 0 && len % rs == 0 && j < len
    ensures Source(len, rs, Target(len, rs, j)) == j
  {
    var n := len / rs;
    Cols(len, rs, j);
    DivUnique(j % rs * n + j / rs, n, j % rs, j / rs);
  }

  /** Detransposing undoes transposing, for all data and every record size. */
  lemma TransposeBack(d: bytes, rs: nat)
    ensures Detransposed(Transposed(d, rs), rs) == d
  {
    if Applies(d, rs) {
      forall j | 0 <= j < |d| ensures Detransposed(Transposed(d, rs), rs)[j] == d[j] {
        SourceOfTarget(|d|, rs, j);
      }
    }
  }

  /** The fixed portion is transposed, the tails stay as they are. */
  function Filtered(d: bytes, fixed: nat, rs: nat): bytes
    requires fixed <= |d|
  {
    Transposed(d[..fixed], rs) + d[fixed..]
  }

  function Unfiltered(d: bytes, fixed: nat, rs: nat): bytes
    requires fixed <= |d|
  {
    Detransposed(d[..fixed], rs) + d[fixed..]
  }

  lemma FilterBack(d: bytes, fixed: nat, rs: nat)
    requires fixed <= |d|
    ensures |Filtered(d, fixed, rs)| == |d|
    ensures Unfiltered(Filtered(d, fixed, rs), fixed, rs) == d
    ensures Filtered(d, fixed, rs)[fixed..] == d[fixed..]
  {
    var f := Filtered(d, fixed, rs);
    TransposeBack(d[..fixed], rs);
    assert f[..fixed] == Transposed(d[..fixed], rs);
    assert f[fixed..] == d[fixed..];
  }

  method TransposeRecords(d: bytes, rs: nat) returns (r: bytes)
    ensures r == Transposed(d, rs)
  {
    if rs <= 1 || |d| % rs != 0 { return d; }
    var n := |d| / rs;
    assert |d| == rs * n;
    var out := new byte[|d|];
    var k := 0;
    for c := 0 to rs
      invariant k == c * n
      invariant forall i :: 0 <= i < k && i < |d| ==> out[i] == Transposed(d, rs)[i]
    {
      for q := 0 to n
        invariant k == c * n + q
        invariant forall i :: 0 <= i < k && i < |d| ==> out[i] == Transposed(d, rs)[i]
      {
        Cell(|d|, rs, n, c, q);
        out[k] := d[q * rs + c];
        k := k + 1;
      }
      assert (c + 1) * n == c * n + n;
    }
    r := out[..];
  }

  /** Column c, record q: both numberings of one byte. */
  lemma Cell(len: nat, rs: nat, n: nat, c: nat, q: nat)
    requires len == rs * n && c < rs && q < n
    ensures len % rs == 0 && len / rs == n
    ensures c * n + q < len && q * rs + c < len
    ensures Source(len, rs, c * n + q) == q * rs + c
    ensures (q * rs + c) % rs == c && (q * rs + c) / rs == q
    ensures Target(len, rs, q * rs + c) == c * n + q
  {
    DivUnique(len, rs, n, 0);
    DivUnique(c * n + q, n, c, q);
    DivUnique(q * rs + c, rs, q, c);
    MulMono(n, c, rs - 1);
    assert n * (rs - 1) == len - n && n * c == c * n;
    MulMono(rs, q, n - 1);
    assert rs * (n - 1) == len - rs && rs * q == q * rs;
  }

  /** The columns before c, and the first q records of column c, are in place. */
  ghost predicate Placed(out: seq<byte>, want: bytes, rs: nat, c: nat, q: nat)
    requires |out| == |want| && rs > 0
  {
    forall j :: 0 <= j < |want| && (j % rs < c || (j % rs == c && j / rs < q)) ==> out[j] == want[j]
  }

  method DetransposeRecords(d: bytes, rs: nat) returns (r: bytes)
    ensures r == Detransposed(d, rs)
  {
    if rs <= 1 || |d| % rs != 0 { return d; }
    var n := |d| / rs;
    assert |d| == rs * n;
    var out := new byte[|d|];
    ghost var want := Detransposed(d, rs);
    var k := 0;
    for c := 0 to rs
      invariant k == c * n
      invariant Placed(out[..], want, rs, c, 0)
    {
      for q := 0 to n
        invariant k == c * n + q
        invariant Placed(out[..], want, rs, c, q)
      {
        Cell(|d|, rs, n, c, q);
        Place(out[..], want, rs, c, q);
        ghost var was := out[..];
        out[q * rs + c] := d[k];
        assert out[..] == was[q * rs + c := want[q * rs + c]];
        k := k + 1;
      }
      assert (c + 1) * n == c * n + n;
      NextColumn(out[..], want, rs, n, c);
    }
    r := out[..];
    AllPlaced(r, want, rs);
  }

  lemma NextColumn(out: seq<byte>, want: bytes, rs: nat, n: nat, c: nat)
    requires |out| == |want| == rs * n && rs > 0 && Placed(out, want, rs, c, n)
    ensures Placed(out, want, rs, c + 1, 0)
  {
    forall j | 0 <= j < |want| && j % rs <= c ensures out[j] == want[j] {
      assert rs * n == n * rs;
      InGrid(n, rs, j);
    }
  }

  lemma AllPlaced(out: seq<byte>, want: bytes, rs: nat)
    requires |out| == |want| && rs > 0 && Placed(out, want, rs, rs, 0)
    ensures out == want
  {
    forall j | 0 <= j < |want| ensures out[j] == want[j] { assert j % rs < rs; }
  }

  lemma Place(out: seq<byte>, want: bytes, rs: nat, c: nat, q: nat)
    requires |out| == |want| && c < rs && q * rs + c < |want|
    requires Placed(out, want, rs, c, q)
    ensures Placed(out[q * rs + c := want[q * rs + c]], want, rs, c, q + 1)
  {
    OnlyCell(|want|, rs, c, q);
  }

  lemma OnlyCell(len: nat, rs: nat, c: nat, q: nat)
    requires rs > 0
    ensures forall j :: 0 <= j < len && j / rs == q && j % rs == c ==> j == q * rs + c
  {
    forall j | 0 <= j < len && j / rs == q && j % rs == c ensures j == q * rs + c {
      assert j == rs * (j / rs) + j % rs;
    }
  }

  /** MDF's form of the inverse walks the records and gathers. */
  method MdfDetranspose(d: bytes, cols: int) returns (r: bytes)
    ensures r == Detransposed(d, if cols < 0 then 0 else cols)
  {
    if cols <= 0 || |d| == 0 || |d| % cols != 0 { return d; }
    var rows := |d| / cols;
    assert |d| == cols * rows;
    var out := new byte[|d|];
    ghost var want: bytes := seq(|d|, j requires 0 <= j < |d| => d[Target(|d|, cols, j)]);
    for q := 0 to rows
      invariant forall j :: 0 <= j < |d| && j / cols < q ==> out[j] == want[j]
    {
      for c := 0 to cols
        invariant forall j :: 0 <= j < |d| && (j / cols < q || (j / cols == q && j % cols < c)) ==> out[j] == want[j]
      {
        Cell(|d|, cols, rows, c, q);
        out[q * cols + c] := d[c * rows + q];
        OnlyCell(|d|, cols, c, q);
      }
    }
    forall j | 0 <= j < |d| ensures j / cols < rows && out[j] == want[j] { Cols(|d|, cols, j); }
    r := out[..];
    assert r == want;
    if cols == 1 { forall j | 0 <= j < |d| ensures Target(|d|, 1, j) == j { } }
  }
}
