/**
 * Directories of backup files and the rotation that keeps only the newest
 * ones (database/backup.rs `cleanup_db_backups`, services/config.rs
 * `cleanup_old_backups`). A directory is a map from file name to entry; a
 * file's modification time may be unreadable.
 */
module Files {
  import opened Wrappers
  import opened Sorting

  /** The position of the last `.` in `s`, if any. */
  function LastDot(s: string): (k: Option<nat>)
    ensures k.Some? ==> k.value < |s| && s[k.value] == '.' && '.' !in s[k.value + 1..]
    ensures k.None? ==> '.' !in s
  {
    if s == [] then None
    else if s[|s| - 1] == '.' then Some(|s| - 1)
    else
      var k := LastDot(s[..|s| - 1]);
      LastDotExtends(s, k);
      k
  }

  /** A last character other than `.` leaves the last dot of the prefix in place. */
  lemma LastDotExtends(s: string, k: Option<nat>)
    requires s != [] && s[|s| - 1] != '.'
    requires k.Some? ==> k.value < |s| - 1 && s[k.value] == '.' && '.' !in s[k.value + 1..|s| - 1]
    requires k.None? ==> '.' !in s[..|s| - 1]
    ensures k.Some? ==> '.' !in s[k.value + 1..]
    ensures k.None? ==> '.' !in s
  {
    if k.Some? {
      assert s[k.value + 1..] == s[k.value + 1..|s| - 1] + [s[|s| - 1]];
    } else {
      assert s == s[..|s| - 1] + [s[|s| - 1]];
    }
  }

  /**
   * `Path::extension` of a file name: the text after the last `.`, unless the
   * name is `..`, has no `.`, or has nothing before its last `.` (`.db`).
   */
  function Extension(name: string): (r: Option<string>)
    ensures r.Some? ==> '.' !in r.value && exists k :: 0 < k < |name| && name[k] == '.' && name[k + 1..] == r.value
  {
    if name == ".." then None
    else
      var k := LastDot(name);
      if k.None? || k.value == 0 then None else Some(name[k.value + 1..])
  }

  /** `Path::file_stem` of a file name: the text before the extension, or the whole name without one. */
  function FileStem(name: string): (r: string)
    ensures Extension(name).Some? ==> r + "." + Extension(name).value == name
    ensures Extension(name).None? ==> r == name
  {
    if name == ".." then name
    else
      var k := LastDot(name);
      if k.None? || k.value == 0 then name
      else
        assert name == name[..k.value] + "." + name[k.value + 1..];
        name[..k.value]
  }

  /** A hidden file without another dot has no extension; an ordinary name has one. */
  lemma ExtensionExamples()
    ensures Extension(".db") == None
    ensures Extension("db_backup_1.db") == Some("db")
    ensures Extension("backup_1.json") == Some("json")
  {
    assert LastDot("db_backup_1.db") == Some(11);
    assert LastDot("backup_1.json") == Some(8);
  }

  /** A file's modification time (`None` when the metadata cannot be read) and its content. */
  datatype FileEntry<C> = FileEntry(mtime: Option<int>, content: C)

  /** `Option<SystemTime>` order: `None` first, then by time. */
  predicate MtimeLe(a: Option<int>, b: Option<int>)
  {
    a.None? || (b.Some? && a.value <= b.value)
  }

  function MtimeKey(t: Option<int>): Key
  {
    if t.Some? then [KInt(t.value)] else [KNull]
  }

  lemma MtimeKeyOrder(a: Option<int>, b: Option<int>)
    requires KeyLe(MtimeKey(a), MtimeKey(b))
    ensures MtimeLe(a, b)
  {
    KeyLeHead(MtimeKey(a), MtimeKey(b));
  }

  /** The elements of a sequence as a set. */
  function Elements<T(!new)>(s: seq<T>): (r: set<T>)
    ensures forall x :: x in r <==> x in s
  {
    set x | x in s
  }

  lemma ElementsSnoc<T(!new)>(s: seq<T>, x: T)
    ensures Elements(s + [x]) == Elements(s) + {x}
  {
  }

  /** A sequence without repetitions has as many elements as its set. */
  lemma {:induction false} DistinctCard<T(!new)>(s: seq<T>)
    requires Distinct(s)
    ensures |Elements(s)| == |s|
  {
    if s != [] {
      var t := s[1..];
      assert Distinct(t) by {
        forall i, j | 0 <= i < j < |t| ensures t[i] != t[j] {
          assert t[i] == s[i + 1] && t[j] == s[j + 1];
        }
      }
      DistinctCard(t);
      assert s[0] !in t by {
        forall k | 0 <= k < |t| ensures t[k] != s[0] {
          assert t[k] == s[k + 1];
        }
      }
      assert Elements(s) == Elements(t) + {s[0]} by {
        assert s == [s[0]] + t;
      }
    }
  }

  /**
   * In a sequence sorted by modification time, the first `count` names are no
   * newer than one another in order, nor than any later name.
   */
  lemma SortedPrefixOldest<C>(sorted: seq<string>, files: map<string, FileEntry<C>>, count: nat)
    requires count <= |sorted| && Distinct(sorted)
    requires forall n :: n in sorted ==> n in files
    requires SortedBy(sorted, (n: string) => if n in files then MtimeKey(files[n].mtime) else [])
    ensures forall i, j :: 0 <= i < j < count ==> MtimeLe(files[sorted[i]].mtime, files[sorted[j]].mtime)
    ensures forall d, k :: d in sorted[..count] && k in sorted && k !in sorted[..count] ==>
      MtimeLe(files[d].mtime, files[k].mtime)
  {
    var key := (n: string) => if n in files then MtimeKey(files[n].mtime) else [];
    forall i, j | 0 <= i < j < count
      ensures MtimeLe(files[sorted[i]].mtime, files[sorted[j]].mtime)
    {
      assert KeyLe(key(sorted[i]), key(sorted[j]));
      MtimeKeyOrder(files[sorted[i]].mtime, files[sorted[j]].mtime);
    }
    forall d, k | d in sorted[..count] && k in sorted && k !in sorted[..count]
      ensures MtimeLe(files[d].mtime, files[k].mtime)
    {
      var i :| 0 <= i < count && sorted[i] == d;
      var j :| 0 <= j < |sorted| && sorted[j] == k;
      assert KeyLe(key(sorted[i]), key(sorted[j]));
      MtimeKeyOrder(files[d].mtime, files[k].mtime);
    }
  }

  /** The names in `files` whose extension is `ext`. */
  function WithExtension<C>(files: map<string, FileEntry<C>>, ext: string): set<string>
  {
    set n | n in files && Extension(n) == Some(ext)
  }

  /**
   * `after` is `before` with its oldest `ext` files deleted so that `retain` of
   * them remain (all of them when there are no more); every other file is as
   * it was.
   */
  ghost predicate PrunedTo<C>(before: map<string, FileEntry<C>>, after: map<string, FileEntry<C>>, ext: string, retain: nat)
  {
    after.Keys <= before.Keys &&
    (forall n :: n in after ==> after[n] == before[n]) &&
    (forall n :: n in before && n !in after ==> Extension(n) == Some(ext)) &&
    |WithExtension(after, ext)| == (if |WithExtension(before, ext)| <= retain then |WithExtension(before, ext)| else retain) &&
    (forall d, k :: d in before && d !in after && k in after && Extension(k) == Some(ext) ==>
      MtimeLe(before[d].mtime, before[k].mtime))
  }

  /** Deleting distinct `ext` files, as many as exceed `retain` and none newer than a kept one, prunes the folder. */
  lemma PrunedByRemoving<C>(before: map<string, FileEntry<C>>, removed: seq<string>, ext: string, retain: nat)
    requires Distinct(removed)
    requires |removed| == if |WithExtension(before, ext)| <= retain then 0 else |WithExtension(before, ext)| - retain
    requires forall n :: n in removed ==> n in WithExtension(before, ext)
    requires forall d, k :: d in WithExtension(before, ext) && d in removed && k in WithExtension(before, ext) && k !in removed ==>
      MtimeLe(before[d].mtime, before[k].mtime)
    ensures PrunedTo(before, before - Elements(removed), ext, retain)
  {
    var after := before - Elements(removed);
    var gone := Elements(removed);
    assert WithExtension(before, ext) == WithExtension(after, ext) + gone;
    assert WithExtension(after, ext) !! gone;
    DistinctCard(removed);
  }

  /** A directory of files whose content is of type `C`. */
  class Folder<C> {
    var files: map<string, FileEntry<C>>

    constructor (files: map<string, FileEntry<C>>)
      ensures this.files == files
    {
      this.files := files;
    }

    /** The names the rotation considers: those whose extension is `ext`. */
    function Candidates(ext: string): (r: set<string>)
      reads this
      ensures forall n :: n in r <==> n in files && Extension(n) == Some(ext)
    {
      WithExtension(files, ext)
    }

    /** `fs::write`: the file `name` now holds `content`, written at time `now`. */
    method Write(name: string, content: C, now: int)
      modifies this
      ensures files == old(files)[name := FileEntry(Some(now), content)]
    {
      files := files[name := FileEntry(Some(now), content)];
    }

    /** Each named file is deleted in turn; deleting a name that is gone already changes nothing. */
    method RemoveAll(names: seq<string>)
      modifies this
      ensures files == old(files) - Elements(names)
    {
      for i := 0 to |names|
        invariant files == old(files) - Elements(names[..i])
      {
        assert names[..i + 1] == names[..i] + [names[i]];
        ElementsSnoc(names[..i], names[i]);
        files := files - {names[i]};
      }
      assert names[..|names|] == names;
    }

    /**
     * Keeps the `retain` newest files with extension `ext` and deletes the rest,
     * oldest first (files whose time is unreadable count as oldest). `removed`
     * lists the deleted names in deletion order; other files are untouched.
     */
    method RemoveOldest(ext: string, retain: nat) returns (removed: seq<string>)
      modifies this
      ensures Distinct(removed)
      ensures |removed| == if |old(Candidates(ext))| <= retain then 0 else |old(Candidates(ext))| - retain
      ensures forall n :: n in removed ==> n in old(Candidates(ext))
      ensures files == old(files) - Elements(removed)
      ensures forall i, j :: 0 <= i < j < |removed| ==> MtimeLe(old(files)[removed[i]].mtime, old(files)[removed[j]].mtime)
      ensures forall d, k :: d in removed && k in old(Candidates(ext)) && k !in removed ==>
        MtimeLe(old(files)[d].mtime, old(files)[k].mtime)
    {
      var candidates := Candidates(ext);
      if |candidates| <= retain {
        return [];
      }
      var snapshot := files;
      var key := (n: string) => if n in snapshot then MtimeKey(snapshot[n].mtime) else [];
      var sorted := Ordered(candidates, key);
      DistinctCard(sorted);
      assert Elements(sorted) == candidates;
      var count := |candidates| - retain;
      removed := sorted[..count];
      RemoveAll(removed);
      SortedPrefixOldest(sorted, snapshot, count);
      assert Distinct(removed);
    }
  }
}
