/** The registry of job classes of init/job_class.c, kept in step with the configuration
    files of init/conf.c and with the instances that run. */
module Registry {
  import opened Options

  /** What a class is looked up by: its name, and the session it belongs to. */
  datatype Key = Key(name: string, session: nat)

  datatype Class = Class(key: Key, deleted: bool, instances: nat)

  /** A configuration file of a job directory; it has no job while it does not parse. */
  datatype File = File(source: nat, path: string, job: Option<nat>)

  /** Reading a file anew: it cannot be read, it does not parse, or it gives a job. */
  datatype Reading = Unreadable | Unparsable | Parsed

  type Classes = map<nat, Class>

  // ----- lookup -----

  predicate Has(classes: Classes, file: File, k: Key) {
    IsKey(classes, file.job, k)
  }

  predicate IsKey(classes: Classes, job: Option<nat>, k: Key) {
    job.Some? && job.value in classes && classes[job.value].key == k
  }

  /** conf_select_job: the job of the first file that has one for the key. */
  function Select(files: seq<File>, classes: Classes, k: Key): Option<nat> {
    if files == [] then None
    else if Has(classes, files[0], k) then files[0].job
    else Select(files[1..], classes, k)
  }

  lemma {:induction false} SelectFinds(files: seq<File>, classes: Classes, k: Key)
    ensures match Select(files, classes, k)
      case Some(c) => c in classes && classes[c].key == k && Attached(files, c)
      case None => forall i :: 0 <= i < |files| ==> !Has(classes, files[i], k)
  {
    if files != [] {
      if Has(classes, files[0], k) {
        assert files[0].job == Some(files[0].job.value);
      } else {
        SelectFinds(files[1..], classes, k);
        assert forall i :: 0 <= i < |files| - 1 ==> files[1..][i] == files[i + 1];
      }
    }
  }

  /** The job selected is that of the one file before which none has a job for the key. */
  lemma {:induction false} SelectIff(files: seq<File>, classes: Classes, k: Key, c: nat)
    ensures Select(files, classes, k) == Some(c) <==>
      exists i :: 0 <= i < |files| && files[i].job == Some(c) && c in classes && classes[c].key == k
        && forall j :: 0 <= j < i ==>
          files[j].job.None? || files[j].job.value !in classes || classes[files[j].job.value].key != k
  {
    if files != [] {
      var rest := files[1..];
      assert forall i :: 0 <= i < |rest| ==> rest[i] == files[i + 1];
      if !Has(classes, files[0], k) {
        SelectIff(rest, classes, k, c);
        if i :| 0 <= i < |rest| && rest[i].job == Some(c) && c in classes && classes[c].key == k
                && forall j :: 0 <= j < i ==> !Has(classes, rest[j], k) {
          assert files[i + 1].job == Some(c);
          assert forall j :: 0 <= j < i + 1 ==> !Has(classes, files[j], k);
        }
        if i :| 0 <= i < |files| && files[i].job == Some(c) && c in classes && classes[c].key == k
                && forall j :: 0 <= j < i ==> !Has(classes, files[j], k) {
          assert i > 0 && rest[i - 1].job == Some(c);
        }
      } else {
        assert files[0].job == Some(files[0].job.value);
      }
    }
  }

  /** job_class_get_registered. */
  function Find(registered: seq<nat>, classes: Classes, k: Key): Option<nat> {
    if registered == [] then None
    else if registered[0] in classes && classes[registered[0]].key == k then Some(registered[0])
    else Find(registered[1..], classes, k)
  }

  lemma {:induction false} FindFinds(registered: seq<nat>, classes: Classes, k: Key)
    ensures match Find(registered, classes, k)
      case Some(c) => c in registered && c in classes && classes[c].key == k
      case None => forall c :: c in registered && c in classes ==> classes[c].key != k
  {
    if registered != [] && !(registered[0] in classes && classes[registered[0]].key == k) {
      FindFinds(registered[1..], classes, k);
    }
  }

  // ----- the invariant -----

  /** The class registered for a key is the best one, unless it still has instances. */
  ghost predicate Agrees(files: seq<File>, registered: seq<nat>, classes: Classes, k: Key) {
    match Find(registered, classes, k)
    case None => Select(files, classes, k).None?
    case Some(r) => (r in classes && classes[r].instances > 0) || Select(files, classes, k) == Some(r)
  }

  /** Files have their own jobs, in the order of their sources. */
  ghost predicate FilesOk(files: seq<File>, classes: Classes) {
    && (forall i :: 0 <= i < |files| && files[i].job.Some? ==>
          files[i].job.value in classes && !classes[files[i].job.value].deleted)
    && (forall i, j :: 0 <= i < j < |files| ==>
          && files[i].source <= files[j].source
          && (files[i].job.Some? ==> files[i].job != files[j].job)
          && (files[i].source == files[j].source ==> files[i].path != files[j].path))
  }

  /** At most one class is registered for each key, and all that have instances are. */
  ghost predicate RegisteredOk(registered: seq<nat>, classes: Classes) {
    && (forall c :: c in registered ==> c in classes)
    && (forall i, j :: 0 <= i < j < |registered| ==> classes[registered[i]].key != classes[registered[j]].key)
    && (forall c :: c in classes && classes[c].instances > 0 ==> c in registered)
  }

  /** A file's job has the name that the file's path gives it, and its source's session. */
  ghost predicate KeysOk(files: seq<File>, classes: Classes, keyOf: (nat, string) -> Key) {
    forall i :: 0 <= i < |files| && files[i].job.Some? ==>
      files[i].job.value in classes && classes[files[i].job.value].key == keyOf(files[i].source, files[i].path)
  }

  predicate Attached(files: seq<File>, c: nat) {
    exists i :: 0 <= i < |files| && files[i].job == Some(c)
  }

  /** A class that no file has any more is due to be deleted and lives for its instances;
      except for `orphan`, which is about to be dealt with. */
  ghost predicate LiveOk(files: seq<File>, classes: Classes, orphan: Option<nat>) {
    forall c :: c in classes && orphan != Some(c) ==>
      Attached(files, c) || (classes[c].deleted && classes[c].instances > 0)
  }

  // ----- what a change leaves alone -----

  lemma {:induction false} SelectSame(files: seq<File>, before: Classes, after: Classes, k: Key)
    requires forall i :: 0 <= i < |files| ==> Has(before, files[i], k) == Has(after, files[i], k)
    ensures Select(files, before, k) == Select(files, after, k)
  {
    if files != [] {
      assert forall i :: 0 <= i < |files| - 1 ==> files[1..][i] == files[i + 1];
      SelectSame(files[1..], before, after, k);
    }
  }

  lemma {:induction false} FindSame(registered: seq<nat>, before: Classes, after: Classes, k: Key)
    requires forall c :: c in registered ==> c in before && c in after && before[c].key == after[c].key
    ensures Find(registered, before, k) == Find(registered, after, k)
  {
    if registered != [] {
      assert registered[0] in registered && forall c :: c in registered[1..] ==> c in registered;
      FindSame(registered[1..], before, after, k);
    }
  }

  /** A file that has no job for the key may come or go. */
  lemma {:induction false} SelectWithout(files: seq<File>, classes: Classes, i: nat, k: Key)
    requires i < |files| && !Has(classes, files[i], k)
    ensures Select(files[..i] + files[i + 1..], classes, k) == Select(files, classes, k)
  {
    var rest := files[1..];
    if i == 0 {
      assert files[..0] + files[1..] == rest;
    } else {
      assert (files[..i] + files[i + 1..])[1..] == rest[..i - 1] + rest[i..];
      SelectWithout(rest, classes, i - 1, k);
    }
  }

  /** And so may one that is not the first that has. */
  lemma {:induction false} SelectWithoutLater(files: seq<File>, classes: Classes, j: nat, i: nat, k: Key)
    requires j < i < |files| && Has(classes, files[j], k)
    ensures Select(files[..i] + files[i + 1..], classes, k) == Select(files, classes, k)
  {
    var rest := files[1..];
    assert (files[..i] + files[i + 1..])[1..] == rest[..i - 1] + rest[i..];
    if j > 0 && !Has(classes, files[0], k) { SelectWithoutLater(rest, classes, j - 1, i - 1, k); }
  }

  /** With distinct jobs, a file whose job is not the one selected is not the first. */
  lemma {:induction false} NotSelected(files: seq<File>, classes: Classes, i: nat, k: Key)
    requires i < |files| && Has(classes, files[i], k) && Select(files, classes, k) != files[i].job
    ensures exists j :: 0 <= j < i && Has(classes, files[j], k)
  {
    if !Has(classes, files[0], k) {
      NotSelected(files[1..], classes, i - 1, k);
      var j :| 0 <= j < i - 1 && Has(classes, files[1..][j], k);
      assert files[j + 1] == files[1..][j];
    }
  }

  lemma {:induction false} FindAppend(registered: seq<nat>, c: nat, classes: Classes, k: Key)
    requires c in classes
    ensures Find(registered + [c], classes, k) ==
            if Find(registered, classes, k).Some? then Find(registered, classes, k)
            else if classes[c].key == k then Some(c) else None
  {
    if registered == [] {
      assert (registered + [c])[1..] == [];
    } else {
      assert (registered + [c])[1..] == registered[1..] + [c];
      FindAppend(registered[1..], c, classes, k);
    }
  }

  function Without(registered: seq<nat>, c: nat): (r: seq<nat>)
    ensures forall d :: d in r <==> d in registered && d != c
    ensures |r| <= |registered|
  {
    if registered == [] then []
    else if registered[0] == c then Without(registered[1..], c)
    else [registered[0]] + Without(registered[1..], c)
  }

  /** Deregistering a class that was the only one of its key. */
  lemma {:induction false} FindWithout(registered: seq<nat>, c: nat, classes: Classes, k: Key)
    requires c in classes && RegisteredDistinct(registered, classes)
    ensures RegisteredDistinct(Without(registered, c), classes)
    ensures Find(Without(registered, c), classes, k) ==
            if c in registered && classes[c].key == k then None else Find(registered, classes, k)
  {
    if registered != [] {
      var first, rest := registered[0], registered[1..];
      assert RegisteredDistinct(rest, classes) by {
        assert forall i :: 0 <= i < |rest| ==> rest[i] == registered[i + 1];
      }
      FindWithout(rest, c, classes, k);
      FindFinds(rest, classes, k);
      forall d | d in rest ensures d in classes && classes[d].key != classes[first].key {
        var i :| 0 <= i < |rest| && rest[i] == d;
        assert registered[i + 1] == d;
      }
      if c != first {
        var r := Without(rest, c);
        assert forall i :: 0 <= i < |r| ==> r[i] in rest;
        assert forall d :: d in rest ==> exists i :: 1 <= i < |registered| && registered[i] == d;
        assert ([first] + r)[1..] == r;
      }
    }
  }

  ghost predicate RegisteredDistinct(registered: seq<nat>, classes: Classes) {
    && (forall c :: c in registered ==> c in classes)
    && (forall i, j :: 0 <= i < j < |registered| ==> classes[registered[i]].key != classes[registered[j]].key)
  }

  lemma AttachedSelects(files: seq<File>, classes: Classes, c: nat)
    requires c in classes && Attached(files, c)
    ensures Select(files, classes, classes[c].key).Some?
  {
    var i :| 0 <= i < |files| && files[i].job == Some(c);
    assert Has(classes, files[i], classes[c].key);
    SelectFinds(files, classes, classes[c].key);
  }

  /** Classes may change, come or go as long as the keys of those that files have stay. */
  lemma AgreesSame(files: seq<File>, registered: seq<nat>, before: Classes, after: Classes, k: Key)
    requires forall i :: 0 <= i < |files| ==> Has(before, files[i], k) == Has(after, files[i], k)
    requires forall c :: c in registered ==> c in before && c in after && before[c].key == after[c].key
    requires forall c :: c in registered ==> (before[c].instances > 0 ==> after[c].instances > 0)
    ensures Select(files, before, k) == Select(files, after, k)
    ensures Find(registered, before, k) == Find(registered, after, k)
    ensures Agrees(files, registered, before, k) ==> Agrees(files, registered, after, k)
  {
    SelectSame(files, before, after, k);
    FindSame(registered, before, after, k);
  }

  /** Removing a file does not change what is selected, but for the job it had. */
  lemma SelectDropped(files: seq<File>, classes: Classes, i: nat, k: Key)
    requires i < |files| && (Has(classes, files[i], k) ==> Select(files, classes, k) != files[i].job)
    ensures Select(files[..i] + files[i + 1..], classes, k) == Select(files, classes, k)
  {
    if Has(classes, files[i], k) {
      NotSelected(files, classes, i, k);
      var j :| 0 <= j < i && Has(classes, files[j], k);
      SelectWithoutLater(files, classes, j, i, k);
    } else {
      SelectWithout(files, classes, i, k);
    }
  }

  // ----- the registry -----

  class Registry {
    const keyOf: (nat, string) -> Key   // conf_to_job_name, and the source's session
    var classes: Classes             // those not freed
    var files: seq<File>             // of all job directories, in the order they are searched
    var registered: seq<nat>
    var next: nat                    // classes yet to be made have no smaller number

    ghost predicate Sound(orphan: Option<nat>)
      reads this
    {
      && FilesOk(files, classes) && KeysOk(files, classes, keyOf)
      && RegisteredOk(registered, classes) && LiveOk(files, classes, orphan)
      && (forall c :: c in classes ==> c < next)
      && (orphan.Some? ==> orphan.value in classes && !Attached(files, orphan.value))
    }

    ghost predicate Agreed(k: Key)
      reads this
    {
      Agrees(files, registered, classes, k)
    }

    /** Everything is in step. */
    ghost predicate Valid()
      reads this
    {
      Sound(None) && forall k :: Agreed(k)
    }

    constructor (keyOf: (nat, string) -> Key)
      ensures Valid() && files == [] && registered == [] && classes == map[] && this.keyOf == keyOf
    {
      this.keyOf := keyOf;
      classes, files, registered, next := map[], [], [], 0;
    }

    /** conf_select_job. */
    method SelectJob(k: Key) returns (best: Option<nat>)
      ensures best == Select(files, classes, k)
    {
      var i := 0;
      assert files[0..] == files;
      while i < |files|
        invariant i <= |files| && Select(files[i..], classes, k) == Select(files, classes, k)
      {
        assert files[i..][1..] == files[i + 1..];
        var job := files[i].job;
        if job.Some? && job.value in classes && classes[job.value].key == k { return job; }
        i := i + 1;
      }
      return None;
    }

    /** job_class_get_registered. */
    method GetRegistered(k: Key) returns (r: Option<nat>)
      ensures r == Find(registered, classes, k)
    {
      var i := 0;
      assert registered[0..] == registered;
      while i < |registered|
        invariant i <= |registered| && Find(registered[i..], classes, k) == Find(registered, classes, k)
      {
        assert registered[i..][1..] == registered[i + 1..];
        if registered[i] in classes && classes[registered[i]].key == k { return Some(registered[i]); }
        i := i + 1;
      }
      return None;
    }

    /** job_class_remove: only without instances. */
    method Remove(c: nat) returns (ok: bool)
      requires c in classes && RegisteredOk(registered, classes)
      modifies this`registered
      ensures ok == (classes[c].instances == 0) && RegisteredOk(registered, classes)
      ensures registered == if ok then Without(old(registered), c) else old(registered)
      ensures forall k :: (Find(registered, classes, k) ==
        if ok && c in old(registered) && classes[c].key == k then None else Find(old(registered), classes, k))
    {
      if classes[c].instances > 0 { return false; }
      FindWithout(registered, c, classes, classes[c].key);
      forall k
        ensures Find(Without(registered, c), classes, k)
             == (if c in registered && classes[c].key == k then None else Find(registered, classes, k))
      {
        FindWithout(registered, c, classes, k);
      }
      registered := Without(registered, c);
      return true;
    }

    /** job_class_add. */
    method Add(best: Option<nat>)
      requires RegisteredOk(registered, classes)
      requires best.Some? ==> best.value in classes && Find(registered, classes, classes[best.value].key).None?
      modifies this`registered
      ensures RegisteredOk(registered, classes)
      ensures registered == old(registered) + if best.Some? then [best.value] else []
      ensures forall k :: (Find(registered, classes, k) ==
        if best.Some? && classes[best.value].key == k then best else Find(old(registered), classes, k))
    {
      if best.None? { return; }
      FindFinds(registered, classes, classes[best.value].key);
      forall k
        ensures Find(registered + [best.value], classes, k)
             == (if classes[best.value].key == k then best else Find(registered, classes, k))
      {
        FindAppend(registered, best.value, classes, k);
      }
      registered := registered + [best.value];
    }

    /** job_class_consider: register the best class of the key unless the one registered
        still has instances. */
    method Consider(c: nat) returns (isBest: bool)
      requires RegisteredOk(registered, classes) && c in classes && Select(files, classes, classes[c].key).Some?
      requires forall k :: k != classes[c].key ==> Agreed(k)
      modifies this`registered
      ensures RegisteredOk(registered, classes) && forall k :: Agreed(k)
      ensures isBest <==>
        Select(files, classes, classes[c].key) == Some(c) && Find(registered, classes, classes[c].key) == Some(c)
    {
      var key := classes[c].key;
      var best := SelectJob(key);
      var r := GetRegistered(key);
      SelectFinds(files, classes, key);
      FindFinds(registered, classes, key);
      if r != best {
        if r.Some? {
          var ok := Remove(r.value);
          if !ok {
            assert Agreed(key);
            forall k ensures Agreed(k) { assert k != key ==> old(Agreed(k)); }
            return false;
          }
        }
        Add(best);
      }
      assert Agreed(key);
      forall k ensures Agreed(k) { assert k != key ==> old(Agreed(k)); }
      return best == Some(c);
    }

    /** job_class_reconsider: whether `c` is not, or is no longer, registered. */
    method Reconsider(c: nat) returns (unused: bool)
      requires RegisteredOk(registered, classes) && c in classes
      requires forall k :: k != classes[c].key ==> Agreed(k)
      requires Find(registered, classes, classes[c].key) == Some(c) || Agreed(classes[c].key)
      modifies this`registered
      ensures RegisteredOk(registered, classes) && forall k :: Agreed(k)
      ensures unused <==> c !in registered
      ensures c in registered ==> classes[c].instances > 0 || Select(files, classes, classes[c].key) == Some(c)
    {
      var key := classes[c].key;
      var best := SelectJob(key);
      var r := GetRegistered(key);
      SelectFinds(files, classes, key);
      FindFinds(registered, classes, key);
      if r == Some(c) {
        if best != Some(c) {
          var ok := Remove(c);
          if !ok { return false; }
          Add(best);
          forall k ensures Agreed(k) { assert k != key ==> old(Agreed(k)); }
          return true;
        }
        return false;
      }
      return true;
    }

    /** conf_file_destroy, for the job `c` of a file already taken off its list: the
        class is freed unless it has instances, and otherwise due to be deleted. */
    method DestroyJob(c: nat)
      requires Sound(Some(c)) && forall k :: k != classes[c].key ==> Agreed(k)
      requires Find(registered, classes, classes[c].key) == Some(c) || Agreed(classes[c].key)
      modifies this`classes, this`registered
      ensures Valid()
      ensures classes == if old(classes[c].instances) > 0 then old(classes)[c := old(classes[c]).(deleted := true)]
                         else old(classes) - {c}
    {
      MarkDeleted(c);
      NotAttached(files, classes, c);
      var unused := Reconsider(c);
      if unused {
        assert classes[c].instances == 0;
        Free(c);
        assert classes == old(classes) - {c};
      } else {
        assert classes[c].instances > 0;
      }
    }

    method MarkDeleted(c: nat)
      requires Sound(Some(c))
      modifies this`classes
      ensures Sound(Some(c)) && classes == old(classes)[c := old(classes)[c].(deleted := true)]
      ensures forall k :: Find(registered, classes, k) == old(Find(registered, classes, k))
      ensures forall k :: old(Agreed(k)) ==> Agreed(k)
    {
      MarkedSound(files, registered, classes, c);
      ghost var before := classes;
      classes := classes[c := classes[c].(deleted := true)];
      forall k ensures old(Agreed(k)) ==> Agreed(k) {
        assert old(Agreed(k)) == Agrees(files, registered, before, k);
      }
    }

    /** A class that no file has and that is not registered is freed. */
    method Free(c: nat)
      requires Sound(Some(c)) && c !in registered && forall k :: Agreed(k)
      modifies this`classes
      ensures Valid() && classes == old(classes) - {c}
    {
      forall k ensures Agrees(files, registered, classes - {c}, k) {
        assert Agreed(k);
        AgreesSame(files, registered, classes, classes - {c}, k);
      }
      classes := classes - {c};
    }

    /** The place of a file in its source's table, or the number of files. */
    method IndexOf(source: nat, path: string) returns (i: nat)
      ensures i == Index(files, source, path)
    {
      i := 0;
      assert files[0..] == files;
      while i < |files|
        invariant i <= |files| && i + Index(files[i..], source, path) == Index(files, source, path)
      {
        assert files[i..][1..] == files[i + 1..];
        if files[i].source == source && files[i].path == path { return; }
        i := i + 1;
      }
    }

    /** In step but for `job`, whose file has just been taken off its list. */
    ghost predicate Loose(job: Option<nat>)
      reads this
    {
      && Sound(job)
      && (forall k :: !IsKey(classes, job, k) ==> Agreed(k))
      && (job.Some? ==> Find(registered, classes, classes[job.value].key) == job || Agreed(classes[job.value].key))
    }

    /** A file is taken off its list; its job is not dealt with yet. */
    method TakeOff(i: nat)
      requires Valid() && i < |files|
      modifies this`files
      ensures Loose(old(files[i].job)) && files == old(files)[..i] + old(files)[i + 1..]
      ensures old(files[i].job).Some? ==>
        classes[old(files[i].job).value].key == keyOf(old(files[i].source), old(files[i].path))
    {
      ghost var before := files;
      forall k ensures Agrees(files, registered, classes, k) { assert Agreed(k); }
      TakenOff(files, registered, classes, keyOf, i);
      files := files[..i] + files[i + 1..];
      forall k ensures !IsKey(classes, before[i].job, k) ==> Agreed(k) { }
    }

    /** Deletion of a configuration file. */
    method FileDelete(i: nat)
      requires Valid() && i < |files|
      modifies this`files, this`classes, this`registered
      ensures Valid() && files == old(files)[..i] + old(files)[i + 1..]
      ensures classes == Destroyed(old(classes), old(files[i].job))
    {
      var job := files[i].job;
      TakeOff(i);
      if job.Some? { DestroyJob(job.value); }
    }

    /** conf_file_new: an entry for a file, with no job yet. */
    method Insert(source: nat, path: string, at: nat, ghost job: Option<nat>)
      requires Loose(job) && FitsAt(files, source, path, at)
      modifies this`files
      ensures Loose(job) && files == old(files)[..at] + [File(source, path, None)] + old(files)[at..]
    {
      ghost var before := files;
      var file := File(source, path, None);
      Inserted(files, registered, classes, keyOf, file, at, job);
      files := files[..at] + [file] + files[at..];
      forall k ensures old(Agreed(k)) == Agreed(k) {
        assert old(Agreed(k)) == Agrees(before, registered, classes, k);
      }
    }

    /** parse_job: a class for the file at `at`, which has none; it is not considered
        yet. */
    method NewJob(at: nat, ghost job: Option<nat>) returns (c: nat)
      requires Loose(job) && at < |files| && files[at].job.None?
      requires job.Some? ==> classes[job.value].key == keyOf(files[at].source, files[at].path)
      modifies this`files, this`classes, this`next
      ensures Sound(job) && c == old(next) && c !in old(classes)
      ensures classes == old(classes)[c := Class(keyOf(old(files[at].source), old(files[at].path)), false, 0)]
      ensures files == old(files)[at := old(files)[at].(job := Some(c))]
      ensures forall k :: k != classes[c].key ==> Agreed(k)
    {
      c := next;
      var key := keyOf(files[at].source, files[at].path);
      ghost var files0, classes0 := files, classes;
      GivenJob(files, registered, classes, keyOf, at, c, job);
      next := next + 1;
      classes := classes[c := Class(key, false, 0)];
      files := files[at := files[at].(job := Some(c))];
      forall k | k != key ensures Agreed(k) {
        assert old(Agreed(k)) == Agrees(files0, registered, classes0, k);
      }
    }

    /** conf_reload_path without an override: the old entry is taken off, a new one is made
        if the file can be read, its job is considered if it parses, and only then is the
        old job dealt with. */
    method ReloadPath(source: nat, path: string, reading: Reading, at: nat)
      requires Valid() && FitsAt(Removed(files, source, path), source, path, at)
      modifies this`files, this`classes, this`registered, this`next
      ensures Valid()
      ensures
        var rest, was := Removed(old(files), source, path), JobAt(old(files), source, path);
        var c, key := old(next), keyOf(source, path);
        var job := if reading.Parsed? then Some(c) else None;
        && files == (if reading.Unreadable? then rest else rest[..at] + [File(source, path, job)] + rest[at..])
        && classes == Destroyed(if reading.Parsed? then old(classes)[c := Class(key, false, 0)] else old(classes), was)
    {
      var was := TakeOffPath(source, path);
      if !reading.Unreadable? { Load(source, path, reading.Parsed?, at, was); }
      if was.Some? { DestroyJob(was.value); }
    }

    /** The entry for a path, if there is one, is taken off its list. */
    method TakeOffPath(source: nat, path: string) returns (was: Option<nat>)
      requires Valid()
      modifies this`files
      ensures Loose(was) && files == Removed(old(files), source, path) && was == JobAt(old(files), source, path)
      ensures was.Some? ==> classes[was.value].key == keyOf(source, path)
    {
      var i := IndexOf(source, path);
      was := None;
      if i < |files| {
        was := files[i].job;
        TakeOff(i);
      }
    }

    /** A new entry for a file, and its job if it parses. */
    method Load(source: nat, path: string, parses: bool, at: nat, ghost was: Option<nat>)
      requires Loose(was) && FitsAt(files, source, path, at)
      requires was.Some? ==> classes[was.value].key == keyOf(source, path)
      modifies this`files, this`classes, this`registered, this`next
      ensures Loose(was)
      ensures
        var c, key := old(next), keyOf(source, path);
        var job := if parses then Some(c) else None;
        && files == old(files)[..at] + [File(source, path, job)] + old(files)[at..]
        && classes == if parses then old(classes)[c := Class(key, false, 0)] else old(classes)
    {
      Insert(source, path, at, was);
      FilledIn(old(files), at, File(source, path, None), File(source, path, Some(next)));
      if parses { ParseNew(at, was); }
    }

    /** The job of a new entry, and its turn to be considered. */
    method ParseNew(at: nat, ghost was: Option<nat>)
      requires Loose(was) && at < |files| && files[at].job.None?
      requires was.Some? ==> classes[was.value].key == keyOf(files[at].source, files[at].path)
      modifies this`files, this`classes, this`registered, this`next
      ensures Loose(was)
      ensures files == old(files)[at := old(files)[at].(job := Some(old(next)))]
      ensures classes == old(classes)[old(next) := Class(keyOf(old(files[at].source), old(files[at].path)), false, 0)]
    {
      var c := NewJob(at, was);
      assert Attached(files, c) by { assert files[at].job == Some(c); }
      AttachedSelects(files, classes, c);
      var isBest := Consider(c);
    }

    /** conf_reload_path with an override that reads and parses, for a file that is
        there: its job is changed in place, or made if there is none. */
    method ReloadOverride(i: nat)
      requires Valid() && i < |files|
      modifies this`files, this`classes, this`registered, this`next
      ensures Valid()
      ensures files[..] == old(files)[i :=
        old(files)[i].(job := if old(files)[i].job.Some? then old(files)[i].job else Some(old(next)))]
      ensures classes == if old(files[i].job).Some? then old(classes)
        else old(classes)[old(next) := Class(keyOf(old(files[i].source), old(files[i].path)), false, 0)]
    {
      var c;
      if files[i].job.Some? {
        c := files[i].job.value;
      } else {
        c := NewJob(i, None);
      }
      assert Attached(files, c) by { assert files[i].job == Some(c); }
      AttachedSelects(files, classes, c);
      var isBest := Consider(c);
    }

    /** An instance of a registered class begins. */
    method InstanceStart(c: nat)
      requires Valid() && c in registered
      modifies this`classes
      ensures Valid() && classes == old(classes)[c := old(classes)[c].(instances := old(classes)[c].instances + 1)]
    {
      ghost var before := classes;
      classes := classes[c := classes[c].(instances := classes[c].instances + 1)];
      forall k ensures Agreed(k) {
        assert old(Agreed(k)) == Agrees(files, registered, before, k);
        AgreesSame(files, registered, before, classes, k);
      }
    }

    /** The end of an instance, as in job_change_state: a better class may take over once
        it was the last, and a class due to be deleted is freed with it. */
    method InstanceEnd(c: nat)
      requires Valid() && c in classes && classes[c].instances > 0
      modifies this`classes, this`registered
      ensures Valid() && files == old(files)
      ensures
        var was := old(classes)[c];
        classes == if was.instances == 1 && was.deleted then old(classes) - {c}
                   else old(classes)[c := was.(instances := was.instances - 1)]
    {
      ghost var before := classes;
      DropInstance(c);
      ghost var was := before[c];
      assert before[c := was.(instances := was.instances - 1)] - {c} == before - {c};
      GiveWay(c);
    }

    /** The rest of the end of an instance of `c`: the best class takes over from `c` if
        that has no instances left, and `c` is freed if it is also due to be deleted. */
    method GiveWay(c: nat)
      requires c in classes && Sound(if classes[c].deleted then Some(c) else None)
      requires Find(registered, classes, classes[c].key) == Some(c)
      requires forall k :: k != classes[c].key ==> Agreed(k)
      modifies this`classes, this`registered
      ensures Valid()
      ensures classes ==
        if old(classes)[c].deleted && old(classes)[c].instances == 0 then old(classes) - {c} else old(classes)
    {
      var unused := Reconsider(c);
      if classes[c].deleted {
        NotAttached(files, classes, c);
        if unused {
          assert classes[c].instances == 0;
          Free(c);
        } else {
          assert classes[c].instances > 0;
        }
      }
    }

    /** The instance is taken off its class's list. */
    method DropInstance(c: nat)
      requires Valid() && c in classes && classes[c].instances > 0
      modifies this`classes
      ensures classes == old(classes)[c := old(classes)[c].(instances := old(classes)[c].instances - 1)]
      ensures Sound(if classes[c].deleted then Some(c) else None)
      ensures Find(registered, classes, classes[c].key) == Some(c)
      ensures forall k :: k != classes[c].key ==> Agreed(k)
    {
      ghost var before, key := classes, classes[c].key;
      classes := classes[c := classes[c].(instances := classes[c].instances - 1)];
      FindUnique(registered, before, c);
      FindSame(registered, before, classes, key);
      forall k | k != key ensures Agreed(k) {
        assert old(Agreed(k)) == Agrees(files, registered, before, k);
        FindSame(registered, before, classes, k);
        SelectSame(files, before, classes, k);
        FindFinds(registered, before, k);
      }
    }
  }

  lemma FindUnique(registered: seq<nat>, classes: Classes, c: nat)
    requires RegisteredOk(registered, classes) && c in registered
    ensures Find(registered, classes, classes[c].key) == Some(c)
  {
    FindFinds(registered, classes, classes[c].key);
  }

  /** The files without the one at a path of a source. */
  function Removed(files: seq<File>, source: nat, path: string): seq<File> {
    var i := Index(files, source, path);
    if i < |files| then files[..i] + files[i + 1..] else files
  }

  function JobAt(files: seq<File>, source: nat, path: string): Option<nat> {
    var i := Index(files, source, path);
    if i < |files| then files[i].job else None
  }

  /** Where a file may stand: among those of its source, and only once. */
  ghost predicate FitsAt(files: seq<File>, source: nat, path: string, at: nat) {
    && at <= |files|
    && (forall j :: 0 <= j < at ==> files[j].source <= source)
    && (forall j :: at <= j < |files| ==> source <= files[j].source)
    && (forall j :: 0 <= j < |files| ==> files[j].source != source || files[j].path != path)
  }

  lemma FilledIn(files: seq<File>, at: nat, empty: File, full: File)
    requires at <= |files|
    ensures
      var more := files[..at] + [empty] + files[at..];
      more[at] == empty && more[at := full] == files[..at] + [full] + files[at..]
  {
  }

  lemma InsertedFiles(files: seq<File>, classes: Classes, keyOf: (nat, string) -> Key, file: File, at: nat)
    requires FilesOk(files, classes) && KeysOk(files, classes, keyOf)
    requires file.job.None? && FitsAt(files, file.source, file.path, at)
    ensures var more := files[..at] + [file] + files[at..]; FilesOk(more, classes) && KeysOk(more, classes, keyOf)
  {
    var more := files[..at] + [file] + files[at..];
    assert forall j :: 0 <= j < |more| ==>
      more[j] == if j < at then files[j] else if j == at then file else files[j - 1];
  }

  lemma Inserted(files: seq<File>, registered: seq<nat>, classes: Classes, keyOf: (nat, string) -> Key,
                 file: File, at: nat, job: Option<nat>)
    requires FilesOk(files, classes) && KeysOk(files, classes, keyOf) && LiveOk(files, classes, job)
    requires file.job.None? && FitsAt(files, file.source, file.path, at)
    requires job.Some? ==> !Attached(files, job.value)
    ensures
      var more := files[..at] + [file] + files[at..];
      && FilesOk(more, classes) && KeysOk(more, classes, keyOf) && LiveOk(more, classes, job)
      && (job.Some? ==> !Attached(more, job.value))
      && forall k :: Select(more, classes, k) == Select(files, classes, k)
  {
    var more := files[..at] + [file] + files[at..];
    InsertedFiles(files, classes, keyOf, file, at);
    forall k ensures Select(more, classes, k) == Select(files, classes, k) {
      SelectWithout(more, classes, at, k);
      assert more[..at] + more[at + 1..] == files;
    }
    forall c ensures Attached(files, c) <==> Attached(more, c) { InsertedAttached(files, file, at, c); }
  }

  lemma InsertedAttached(files: seq<File>, file: File, at: nat, c: nat)
    requires at <= |files| && file.job.None?
    ensures Attached(files, c) <==> Attached(files[..at] + [file] + files[at..], c)
  {
    var more := files[..at] + [file] + files[at..];
    if j :| 0 <= j < |files| && files[j].job == Some(c) {
      assert more[if j < at then j else j + 1] == files[j];
    }
    if j :| 0 <= j < |more| && more[j].job == Some(c) {
      assert more[j] == files[if j < at then j else j - 1];
    }
  }

  lemma GivenJob(files: seq<File>, registered: seq<nat>, classes: Classes, keyOf: (nat, string) -> Key,
                 at: nat, c: nat, job: Option<nat>)
    requires FilesOk(files, classes) && KeysOk(files, classes, keyOf) && LiveOk(files, classes, job)
    requires RegisteredOk(registered, classes)
    requires at < |files| && files[at].job.None? && c !in classes
    requires job.Some? ==> job.value in classes && !Attached(files, job.value)
    ensures
      var key := keyOf(files[at].source, files[at].path);
      var given, more := files[at := files[at].(job := Some(c))], classes[c := Class(key, false, 0)];
      && FilesOk(given, more) && KeysOk(given, more, keyOf) && LiveOk(given, more, job)
      && RegisteredOk(registered, more)
      && Attached(given, c) && (job.Some? ==> !Attached(given, job.value))
      && (forall k :: k != key && Agrees(files, registered, classes, k) ==> Agrees(given, registered, more, k))
  {
    var key := keyOf(files[at].source, files[at].path);
    var given, more := files[at := files[at].(job := Some(c))], classes[c := Class(key, false, 0)];
    assert given[at].job == Some(c);
    forall k | k != key && Agrees(files, registered, classes, k) ensures Agrees(given, registered, more, k) {
      AgreesSame(files, registered, classes, more, k);
      SelectWithout(files, more, at, k);
      SelectWithout(given, more, at, k);
      assert files[..at] + files[at + 1..] == given[..at] + given[at + 1..];
    }
    forall d | d in classes && Attached(files, d) ensures Attached(given, d) {
      var j :| 0 <= j < |files| && files[j].job == Some(d);
      assert given[j] == files[j];
    }
  }

  function Index(files: seq<File>, source: nat, path: string): (i: nat)
    ensures i <= |files|
    ensures i < |files| ==> files[i].source == source && files[i].path == path
  {
    if files == [] || (files[0].source == source && files[0].path == path) then 0
    else Index(files[1..], source, path) + 1
  }

  /** The classes after the job of a destroyed file has been dealt with: freed, or left
      for its instances. */
  function Destroyed(classes: Classes, job: Option<nat>): Classes {
    if job.None? || job.value !in classes then classes
    else
      var c := classes[job.value];
      if c.instances > 0 then classes[job.value := c.(deleted := true)] else classes - {job.value}
  }

  lemma StillAttached(files: seq<File>, i: nat, c: nat)
    requires i < |files| && Attached(files, c) && files[i].job != Some(c)
    ensures Attached(files[..i] + files[i + 1..], c)
  {
    var j :| 0 <= j < |files| && files[j].job == Some(c);
    assert (files[..i] + files[i + 1..])[if j < i then j else j - 1] == files[j];
  }

  lemma TakenOff(files: seq<File>, registered: seq<nat>, classes: Classes, keyOf: (nat, string) -> Key, i: nat)
    requires FilesOk(files, classes) && KeysOk(files, classes, keyOf) && LiveOk(files, classes, None) && i < |files|
    requires forall k :: Agrees(files, registered, classes, k)
    ensures
      var job, rest := files[i].job, files[..i] + files[i + 1..];
      && FilesOk(rest, classes) && KeysOk(rest, classes, keyOf) && LiveOk(rest, classes, job)
      && (forall k :: !IsKey(classes, job, k) ==> Agrees(rest, registered, classes, k))
      && (job.Some? ==> !Attached(rest, job.value))
      && (job.Some? ==> var k := classes[job.value].key;
                        Find(registered, classes, k) == job || Agrees(rest, registered, classes, k))
  {
    var job, rest := files[i].job, files[..i] + files[i + 1..];
    assert forall j :: 0 <= j < |rest| ==> rest[j] == files[if j < i then j else j + 1];
    forall k ensures !IsKey(classes, job, k) ==> Agrees(rest, registered, classes, k) {
      assert Agrees(files, registered, classes, k);
      if !Has(classes, files[i], k) { SelectDropped(files, classes, i, k); }
    }
    forall c | c in classes && job != Some(c) && Attached(files, c) ensures Attached(rest, c) {
      StillAttached(files, i, c);
    }
    if job.Some? {
      var k := classes[job.value].key;
      assert Has(classes, files[i], k) && Agrees(files, registered, classes, k);
      SelectFinds(files, classes, k);
      if Select(files, classes, k) != job { SelectDropped(files, classes, i, k); }
    }
  }

  /** A class may be marked for deletion once no file has it. */
  lemma MarkedSound(files: seq<File>, registered: seq<nat>, classes: Classes, c: nat)
    requires FilesOk(files, classes) && RegisteredOk(registered, classes) && LiveOk(files, classes, Some(c))
    requires c in classes && !Attached(files, c)
    ensures var marked := classes[c := classes[c].(deleted := true)];
      && FilesOk(files, marked) && RegisteredOk(registered, marked) && LiveOk(files, marked, Some(c))
      && (forall k :: Find(registered, marked, k) == Find(registered, classes, k))
      && (forall k :: Agrees(files, registered, classes, k) ==> Agrees(files, registered, marked, k))
  {
    var marked := classes[c := classes[c].(deleted := true)];
    forall k
      ensures Find(registered, marked, k) == Find(registered, classes, k)
      ensures Agrees(files, registered, classes, k) ==> Agrees(files, registered, marked, k)
    {
      AgreesSame(files, registered, classes, marked, k);
    }
  }

  lemma NotAttached(files: seq<File>, classes: Classes, c: nat)
    requires c in classes && !Attached(files, c)
    ensures Select(files, classes, classes[c].key) != Some(c)
  {
    SelectFinds(files, classes, classes[c].key);
  }
}
