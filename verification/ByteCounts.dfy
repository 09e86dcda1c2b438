/** The total size of a set of files. */
module ByteCounts {
  import opened FileTree

  ghost function TotalSize(files: map<Path, Bytes>): nat {
    if files == map[] then 0
    else
      var p :| p in files;
      |files[p]| + TotalSize(files - {p})
  }

  lemma {:induction false} TotalSizeWithout(files: map<Path, Bytes>, p: Path)
    requires p in files
    ensures TotalSize(files) == |files[p]| + TotalSize(files - {p})
    decreases |files|
  {
    var first :| first in files && TotalSize(files) == |files[first]| + TotalSize(files - {first});
    if first != p {
      TotalSizeWithout(files - {first}, p);
      TotalSizeWithout(files - {p}, first);
      assert files - {first} - {p} == files - {p} - {first};
    }
  }

  lemma TotalSizeWith(files: map<Path, Bytes>, p: Path, content: Bytes)
    requires p !in files
    ensures TotalSize(files[p := content]) == TotalSize(files) + |content|
  {
    TotalSizeWithout(files[p := content], p);
    assert files[p := content] - {p} == files;
  }

  lemma {:induction false} TotalSizeMonotone(part: map<Path, Bytes>, whole: map<Path, Bytes>)
    requires forall p :: p in part ==> p in whole && whole[p] == part[p]
    ensures TotalSize(part) <= TotalSize(whole)
    ensures |part| <= |whole|
    decreases |part|
  {
    if part == map[] {
    } else {
      var p :| p in part;
      TotalSizeWithout(part, p);
      TotalSizeWithout(whole, p);
      TotalSizeMonotone(part - {p}, whole - {p});
    }
  }
}
