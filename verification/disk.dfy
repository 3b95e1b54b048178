/** The disk cost model and the temporary artifact manager.

    The reference keeps `total_seeks`, `total_transfers` and `temp_file_count` as fields
    of the sorter and writes runs to files `temp_run_<id>.txt`. Here all of it is one
    immutable `Machine` value threaded through the phases; the files are a map from id to
    the run's keys. */
module Disk {
  import opened Runs
  import opened Configuration

  datatype Machine = Machine(seeks: nat, transfers: nat, tempCount: nat, disk: map<nat, Run>)

  /** A freshly constructed sorter: no cost charged, no temporary file created. */
  const Start: Machine := Machine(0, 0, 0, map[])

  /** Exactly the ids `0 .. tempCount - 1` name files: every id handed out has been written,
      and no file exists under an id not yet handed out. */
  ghost predicate DiskInv(st: Machine) {
    forall id: nat :: id in st.disk <==> id < st.tempCount
  }

  /** `st2` keeps every file of `st` unchanged. */
  ghost predicate Extends(st: Machine, st2: Machine) {
    forall id: nat :: id in st.disk ==> id in st2.disk && st2.disk[id] == st.disk[id]
  }

  /** `simulateDiskRead(blocks)`: one seek and `blocks` transfers. */
  function DiskRead(st: Machine, blocks: nat): (r: Machine)
    ensures r.seeks == st.seeks + 1
    ensures r.transfers == st.transfers + blocks
    ensures r.tempCount == st.tempCount && r.disk == st.disk
  {
    st.(seeks := st.seeks + 1, transfers := st.transfers + blocks)
  }

  /** `simulateDiskWrite(blocks)`: one seek and `blocks` transfers. */
  function DiskWrite(st: Machine, blocks: nat): (r: Machine)
    ensures r.seeks == st.seeks + 1
    ensures r.transfers == st.transfers + blocks
    ensures r.tempCount == st.tempCount && r.disk == st.disk
  {
    st.(seeks := st.seeks + 1, transfers := st.transfers + blocks)
  }

  /** `getTempFilename()`: hands out the current counter value and advances the counter.
      The id is fresh: no file exists under it yet. */
  function NewTempId(st: Machine): (r: (nat, Machine))
    ensures r.1.tempCount == r.0 + 1
    ensures r.0 == st.tempCount
    ensures DiskInv(st) ==> r.0 !in st.disk && forall id :: id in st.disk ==> id < r.0
    ensures r.1.seeks == st.seeks && r.1.transfers == st.transfers && r.1.disk == st.disk
  {
    (st.tempCount, st.(tempCount := st.tempCount + 1))
  }

  /** Writing a run to the file of the given id. */
  function WriteRun(st: Machine, id: nat, run: Run): (r: Machine)
    ensures id in r.disk && r.disk[id] == run
    ensures forall other :: other in st.disk && other != id ==> other in r.disk && r.disk[other] == st.disk[other]
    ensures r.disk.Keys == st.disk.Keys + {id}
    ensures r.seeks == st.seeks && r.transfers == st.transfers && r.tempCount == st.tempCount
  {
    st.(disk := st.disk[id := run])
  }

  /** Allocating the next id and writing a run under it keeps `DiskInv` and every older file. */
  lemma NewFileKeepsInv(st: Machine, run: Run)
    requires DiskInv(st)
    ensures DiskInv(WriteRun(NewTempId(st).1, NewTempId(st).0, run))
    ensures Extends(st, WriteRun(NewTempId(st).1, NewTempId(st).0, run))
  {
  }

  lemma ExtendsTrans(a: Machine, b: Machine, c: Machine)
    requires Extends(a, b) && Extends(b, c)
    ensures Extends(a, c)
  {
  }

  /** The runs stored under ids `first .. first + count - 1`, in id order. */
  function Live(disk: map<nat, Run>, first: nat, count: nat): (rs: seq<Run>)
    requires forall id: nat :: first <= id < first + count ==> id in disk
    ensures |rs| == count
    decreases count
  {
    if count == 0 then [] else [disk[first]] + Live(disk, first + 1, count - 1)
  }

  /** Entry `i` of the listing is the file of id `first + i`: the `i`-th file a batch opens. */
  lemma {:induction false} LiveIndex(disk: map<nat, Run>, first: nat, count: nat, i: nat)
    requires forall id: nat :: first <= id < first + count ==> id in disk
    requires i < count
    ensures Live(disk, first, count)[i] == disk[first + i]
    decreases count
  {
    if i > 0 {
      LiveIndex(disk, first + 1, count - 1, i - 1);
    }
  }

  /** Files listed from a state keep their contents in any later state that extends it. */
  lemma {:induction false} LiveFrame(st: Machine, st2: Machine, first: nat, count: nat)
    requires DiskInv(st) && first + count <= st.tempCount
    requires DiskInv(st2) && Extends(st, st2)
    ensures Live(st2.disk, first, count) == Live(st.disk, first, count)
    decreases count
  {
    if count > 0 {
      LiveFrame(st, st2, first + 1, count - 1);
    }
  }

  /** `LiveFrame` for one listing taken in the later state. */
  lemma LiveFrameAt(st: Machine, st2: Machine, first: nat, count: nat, listed: seq<Run>)
    requires DiskInv(st) && first + count <= st.tempCount
    requires DiskInv(st2) && Extends(st, st2)
    requires listed == Live(st2.disk, first, count)
    ensures listed == Live(st.disk, first, count)
  {
    LiveFrame(st, st2, first, count);
  }

  /** Listing `a + b` files is listing the first `a` and then the next `b`. */
  lemma {:induction false} LiveSplit(disk: map<nat, Run>, first: nat, a: nat, b: nat)
    requires forall id: nat :: first <= id < first + a + b ==> id in disk
    ensures Live(disk, first, a + b) == Live(disk, first, a) + Live(disk, first + a, b)
    decreases a
  {
    if a > 0 {
      LiveSplit(disk, first + 1, a - 1, b);
    }
  }

  /** A listing is its first file followed by the listing of the files after it. */
  lemma LiveFront(disk: map<nat, Run>, first: nat, next: nat, out: Run, rest: seq<Run>)
    requires next == first + 1
    requires forall id: nat :: first <= id < first + 1 + |rest| ==> id in disk
    requires disk[first] == out && Live(disk, next, |rest|) == rest
    ensures Live(disk, first, 1 + |rest|) == [out] + rest
  {
  }

  /** A listing of `n` files split after the first `a`. */
  lemma LiveSplitAt(disk: map<nat, Run>, first: nat, a: nat, n: nat)
    requires a <= n
    requires forall id: nat :: first <= id < first + n ==> id in disk
    ensures Live(disk, first, n) == Live(disk, first, a) + Live(disk, first + a, n - a)
  {
    LiveSplit(disk, first, a, n - a);
  }

  /** `std::rename` of file `temp_file_count - 1` to the output: it fails when no id has been
      handed out (the reference then names `temp_run_-1.txt`) or when that file is missing. */
  function Promote(st: Machine): (r: Result<Run>)
    ensures r.Ok? <==> st.tempCount > 0 && st.tempCount - 1 in st.disk
    ensures r.Ok? ==> r.value == st.disk[st.tempCount - 1]
    ensures r.Err? ==> r.error == RenameFailed
  {
    if st.tempCount == 0 || st.tempCount - 1 !in st.disk then Err(RenameFailed)
    else Ok(st.disk[st.tempCount - 1])
  }

  /** The decimal digits of `n`, as `std::to_string` prints them. */
  function Decimal(n: nat): (s: string)
    ensures |s| >= 1
    ensures n < 10 <==> |s| == 1
    ensures forall i :: 0 <= i < |s| ==> '0' <= s[i] <= '9'
  {
    if n < 10 then [Digit(n)] else Decimal(n / 10) + [Digit(n % 10)]
  }

  /** The number a string of decimal digits spells, most significant digit first. */
  function DigitsValue(s: string): nat
    decreases |s|
  {
    if s == [] then 0
    else
      var d := s[|s| - 1] as int - '0' as int;
      10 * DigitsValue(s[..|s| - 1]) + (if 0 <= d < 10 then d else 0)
  }

  /** `Decimal` spells its argument: read back as a decimal number, the digits give `n`. */
  lemma {:induction false} DecimalValue(n: nat)
    ensures DigitsValue(Decimal(n)) == n
    decreases n
  {
    var s := Decimal(n);
    if n < 10 {
      assert s[..0] == [];
    } else {
      assert s[..|s| - 1] == Decimal(n / 10);
      DecimalValue(n / 10);
    }
  }

  function Digit(d: nat): (c: char)
    requires d < 10
    ensures c as int == '0' as int + d
  {
    ('0' as int + d) as char
  }

  /** The file name of temporary run `id`: `temp_run_`, the decimal digits of `id`, `.txt`. */
  function TempFilename(id: nat): (name: string)
    ensures |name| == 13 + |Decimal(id)|
    ensures name[..9] == "temp_run_" && name[|name| - 4..] == ".txt"
    ensures name[9..|name| - 4] == Decimal(id)
  {
    "temp_run_" + Decimal(id) + ".txt"
  }

  /** Different numbers print differently. */
  lemma {:induction false} DecimalInjective(a: nat, b: nat)
    requires Decimal(a) == Decimal(b)
    ensures a == b
  {
    if a < 10 && b < 10 {
      assert Digit(a) == Decimal(a)[0] == Decimal(b)[0] == Digit(b);
    } else if a >= 10 && b >= 10 {
      var sa, sb := Decimal(a), Decimal(b);
      assert sa[|sa| - 1] == Digit(a % 10) && sb[|sb| - 1] == Digit(b % 10);
      assert a % 10 == b % 10;
      assert sa[..|sa| - 1] == Decimal(a / 10);
      assert sb[..|sb| - 1] == Decimal(b / 10);
      DecimalInjective(a / 10, b / 10);
    }
  }

  /** Distinct ids give distinct temporary file names, so a run file is never overwritten. */
  lemma TempFilenameInjective(a: nat, b: nat)
    requires TempFilename(a) == TempFilename(b)
    ensures a == b
  {
    var na, nb := TempFilename(a), TempFilename(b);
    assert na[9..|na| - 4] == Decimal(a);
    assert nb[9..|nb| - 4] == Decimal(b);
    DecimalInjective(a, b);
  }
}
