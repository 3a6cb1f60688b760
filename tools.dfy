/**
 * Display helpers of the file manager (libs/tools.py): the unit chosen for
 * a byte count, the `rwx` access string and the icon of a tree-view entry.
 */
module Tools {
  import opened Wrappers

  /** The units `convert_bytes` tries, smallest first. */
  const Units: seq<string> := ["bytes", "KB", "MB", "GB", "TB"]

  /**
   * A byte count as `convert_bytes` reports it: the scaled amount and its
   * unit. The `"%3.1f %s"` rendering of the pair is not modelled.
   */
  datatype Size = Size(amount: real, unit: string)

  /** 1024 to the power `k`: the divisor in force at unit `k`. */
  function Scale(k: nat): (r: real)
    ensures r >= 1.0
  {
    if k == 0 then 1.0 else 1024.0 * Scale(k - 1)
  }

  /** The count `num` shown in unit `k` is below 1024. */
  predicate Fits(num: real, k: nat)
  {
    num / Scale(k) < 1024.0
  }

  /** The first unit index in `k..|Units|` at which `num` fits, if any. */
  function FirstFit(num: real, k: nat): Option<nat>
    decreases |Units| - k
  {
    if k >= |Units| then None
    else if Fits(num, k) then Some(k)
    else FirstFit(num, k + 1)
  }

  /** The unit `convert_bytes` chooses for `num`, or `None` when it returns nothing. */
  function UnitIndex(num: real): Option<nat>
  {
    FirstFit(num, 0)
  }

  /**
   * `convert_bytes`: divide by 1024 until the amount is below 1024, trying
   * bytes, KB, MB, GB and TB in turn; past TB the loop ends without a result.
   */
  method ConvertBytes(num: real) returns (r: Option<Size>)
    ensures r == match UnitIndex(num)
                 case Some(k) => Some(Size(num / Scale(k), Units[k]))
                 case None => None
    ensures num < 1024.0 ==> r == Some(Size(num, "bytes"))
  {
    var n := num;
    var i := 0;
    while i < |Units|
      invariant 0 <= i <= |Units|
      invariant n == num / Scale(i)
      invariant UnitIndex(num) == FirstFit(num, i)
    {
      if n < 1024.0 {
        return Some(Size(n, Units[i]));
      }
      ScaleStep(num, i);
      n := n / 1024.0;
      i := i + 1;
    }
    return None;
  }

  /** Dividing the amount at unit `k` by 1024 gives the amount at unit `k + 1`. */
  lemma ScaleStep(num: real, k: nat)
    ensures num / Scale(k) / 1024.0 == num / Scale(k + 1)
  {
    var s := Scale(k);
    assert Scale(k + 1) == 1024.0 * s;
    assert (num / s / 1024.0) * (1024.0 * s) == num;
  }

  /** An amount fits unit `k` exactly when it is below 1024 to the power `k + 1`. */
  lemma FitsBelow(num: real, k: nat)
    ensures Fits(num, k) <==> num < Scale(k + 1)
  {
    var s := Scale(k);
    assert Scale(k + 1) == 1024.0 * s;
    assert num / s * s == num;
    if num / s < 1024.0 {
      assert num / s * s < 1024.0 * s;
    } else {
      assert num / s * s >= 1024.0 * s;
    }
  }

  /** The divisors grow with the unit index. */
  lemma {:induction false} ScaleMonotone(j: nat, k: nat)
    requires j <= k
    ensures Scale(j) <= Scale(k)
    decreases k - j
  {
    if j < k {
      ScaleMonotone(j, k - 1);
    }
  }

  /** Once an amount fits a unit it fits every larger one. */
  lemma FitsUpward(num: real, j: nat, k: nat)
    requires j <= k && Fits(num, j)
    ensures Fits(num, k)
  {
    FitsBelow(num, j);
    FitsBelow(num, k);
    ScaleMonotone(j + 1, k + 1);
  }

  /**
   * The unit chosen is the first one, in the order bytes, KB, MB, GB, TB,
   * at which the scaled amount is below 1024.
   */
  lemma {:induction false} FirstFitIsFirst(num: real, from: nat, k: nat)
    requires from <= |Units|
    ensures FirstFit(num, from) == Some(k) <==>
              from <= k < |Units| && Fits(num, k) && forall j :: from <= j < k ==> !Fits(num, j)
    decreases |Units| - from
  {
    if from < |Units| && !Fits(num, from) {
      FirstFitIsFirst(num, from + 1, k);
    }
  }

  /** The chosen unit `k` is exactly the first unit that fits. */
  lemma UnitIndexIsFirst(num: real, k: nat)
    ensures UnitIndex(num) == Some(k) <==>
              k < |Units| && Fits(num, k) && forall j :: 0 <= j < k ==> !Fits(num, j)
  {
    FirstFitIsFirst(num, 0, k);
  }

  /**
   * Past bytes, the reported amount `num / 1024^k` lies in [1, 1024): it did
   * not fit the previous unit and it fits this one.
   */
  lemma ScaledAmountInRange(num: real, k: nat)
    requires UnitIndex(num) == Some(k) && k >= 1
    ensures 1.0 <= num / Scale(k) < 1024.0
  {
    UnitIndexIsFirst(num, k);
    assert !Fits(num, k - 1);
    ScaleStep(num, k - 1);
  }

  /** Nothing is chosen exactly when no unit from `from` on fits. */
  lemma {:induction false} FirstFitNone(num: real, from: nat)
    requires from <= |Units|
    ensures FirstFit(num, from) == None <==> forall j :: from <= j < |Units| ==> !Fits(num, j)
    decreases |Units| - from
  {
    if from < |Units| && !Fits(num, from) {
      FirstFitNone(num, from + 1);
    }
  }

  /** There is no unit beyond TB: nothing is returned exactly from 1024^5 bytes on. */
  lemma NoUnitBeyondTB(num: real)
    ensures UnitIndex(num) == None <==> num >= Scale(|Units|)
  {
    FirstFitNone(num, 0);
    FitsBelow(num, |Units| - 1);
    if Fits(num, |Units| - 1) {
      assert UnitIndex(num) != None;
    } else {
      forall j | 0 <= j < |Units| ensures !Fits(num, j) {
        if Fits(num, j) {
          FitsUpward(num, j, |Units| - 1);
        }
      }
    }
  }

  /** 1536 bytes are shown as 1.5 KB; 1024^4 bytes as 1.0 TB. */
  lemma ConvertBytesExamples()
    ensures UnitIndex(1536.0) == Some(1) && 1536.0 / Scale(1) == 1.5
    ensures UnitIndex(Scale(4)) == Some(4) && Units[4] == "TB"
  {
    assert Scale(1) == 1024.0;
    assert !Fits(1536.0, 0);
    FitsBelow(Scale(4), 4);
    forall j | 0 <= j < 4 ensures !Fits(Scale(4), j) {
      FitsBelow(Scale(4), j);
      ScaleMonotone(j + 1, 4);
    }
    UnitIndexIsFirst(Scale(4), 4);
  }

  /** What `os.access` reports for a path: read, write and execute permission. */
  datatype Access = Access(read: bool, write: bool, execute: bool)

  /** The letters of the access string, in the order `get_access_string` visits them. */
  const AccessLetters: string := "rwx"

  /** The permissions in the same order as `AccessLetters`. */
  function Granted(access: Access): seq<bool>
  {
    [access.read, access.write, access.execute]
  }

  /** The `rwx` string of `access`: each letter where granted, `-` where not. */
  function AccessString(access: Access): (s: string)
    ensures |s| == 3
    ensures 'r' in s <==> access.read
    ensures 'w' in s <==> access.write
    ensures 'x' in s <==> access.execute
  {
    [if access.read then 'r' else '-',
     if access.write then 'w' else '-',
     if access.execute then 'x' else '-']
  }

  /**
   * `get_access_string`: appends, for r, w and x in turn, the letter when
   * that access is granted and `-` otherwise.
   */
  method GetAccessString(access: Access) returns (s: string)
    ensures |s| == |AccessLetters|
    ensures forall i :: 0 <= i < |s| ==> s[i] == if Granted(access)[i] then AccessLetters[i] else '-'
    ensures s == AccessString(access)
  {
    var granted := Granted(access);
    s := "";
    for i := 0 to |AccessLetters|
      invariant |s| == i
      invariant forall j :: 0 <= j < i ==> s[j] == if granted[j] then AccessLetters[j] else '-'
    {
      s := s + [if granted[i] then AccessLetters[i] else '-'];
    }
  }

  /**
   * `get_icon_for_treeview`: a directory shows a lock when its access
   * string has no `r`; a file shows the Python icon for `.py` only. The
   * extension plays no part for directories.
   */
  function IconForTreeview(ext: string, isDir: bool, access: Access): (icon: string)
    ensures isDir ==> (icon == "folder-lock" <==> !access.read) && (icon == "folder" <==> access.read)
    ensures !isDir ==> (icon == "language-python" <==> ext == ".py") && (icon == "file" <==> ext != ".py")
  {
    if isDir then
      if 'r' !in AccessString(access) then "folder-lock" else "folder"
    else if ext == ".py" then "language-python"
    else "file"
  }
}
