/**
 * The browser's `FormData` as the submission code uses it: an ordered list
 * of (name, value) entries, where `append` adds at the end, `get` returns the
 * value of the first entry with that name (or null) and `getAll` every
 * value with that name, in order.
 */
module FormDataModel {
  import opened Wrappers

  type FormData = seq<(string, string)>

  /** `formData.get(key)`; `None` is `null`. */
  function Get(fd: FormData, key: string): Option<string> {
    if fd == [] then None
    else if fd[0].0 == key then Some(fd[0].1)
    else Get(fd[1..], key)
  }

  /** `get` answers `null` exactly when no entry has the name, and otherwise the value of the first one that has it. */
  lemma {:induction false} GetFindsFirst(fd: FormData, key: string)
    ensures Get(fd, key).None? <==> forall i :: 0 <= i < |fd| ==> fd[i].0 != key
    ensures Get(fd, key).Some? ==>
      exists i :: 0 <= i < |fd| && fd[i] == (key, Get(fd, key).value) && forall j :: 0 <= j < i ==> fd[j].0 != key
  {
    if fd != [] && fd[0].0 != key {
      GetFindsFirst(fd[1..], key);
      assert forall i :: 1 <= i < |fd| ==> fd[i] == fd[1..][i - 1];
      if Get(fd, key).Some? {
        var i :| 0 <= i < |fd[1..]| && fd[1..][i] == (key, Get(fd, key).value) && forall j :: 0 <= j < i ==> fd[1..][j].0 != key;
        assert fd[i + 1] == (key, Get(fd, key).value);
      }
    }
  }

  /** `formData.getAll(key)`. */
  function GetAll(fd: FormData, key: string): seq<string> {
    if fd == [] then []
    else if fd[0].0 == key then [fd[0].1] + GetAll(fd[1..], key)
    else GetAll(fd[1..], key)
  }

  /** `getAll` returns the values of exactly the entries with that name, never more values than entries. */
  lemma {:induction false} GetAllCollects(fd: FormData, key: string)
    ensures |GetAll(fd, key)| <= |fd|
    ensures forall v :: v in GetAll(fd, key) <==> (key, v) in fd
  {
    if fd != [] {
      GetAllCollects(fd[1..], key);
      assert forall e :: e in fd <==> e == fd[0] || e in fd[1..];
    }
  }

  /**
   * `getAll` is a scan of the entries in order: the values for a prefix one
   * entry longer are the shorter prefix's values, followed by that entry's
   * value when it has the name.  With `GetAll([], key) == []` this fixes the
   * result: the values of the entries with the name, in entry order.
   */
  lemma GetAllScan(fd: FormData, key: string, i: nat)
    requires i < |fd|
    ensures GetAll(fd[..i + 1], key) == GetAll(fd[..i], key) + (if fd[i].0 == key then [fd[i].1] else [])
  {
    assert fd[..i + 1] == fd[..i] + [fd[i]];
    GetAllAppend(fd[..i], [fd[i]], key);
    assert [fd[i]][1..] == [];
  }

  /** Looking a name up in two lists appended one after the other. */
  lemma LookupAppend(a: FormData, b: FormData, key: string)
    ensures Get(a + b, key) == if Get(a, key).Some? then Get(a, key) else Get(b, key)
    ensures GetAll(a + b, key) == GetAll(a, key) + GetAll(b, key)
  {
    GetAppend(a, b, key);
    GetAllAppend(a, b, key);
  }

  lemma {:induction false} GetAppend(a: FormData, b: FormData, key: string)
    ensures Get(a + b, key) == if Get(a, key).Some? then Get(a, key) else Get(b, key)
  {
    if a == [] {
      assert a + b == b;
    } else {
      assert (a + b)[0] == a[0];
      assert (a + b)[1..] == a[1..] + b;
      GetAppend(a[1..], b, key);
    }
  }

  lemma {:induction false} GetAllAppend(a: FormData, b: FormData, key: string)
    ensures GetAll(a + b, key) == GetAll(a, key) + GetAll(b, key)
  {
    if a == [] {
      assert a + b == b;
    } else {
      assert (a + b)[0] == a[0];
      assert (a + b)[1..] == a[1..] + b;
      GetAllAppend(a[1..], b, key);
      if a[0].0 == key {
        assert [a[0].1] + GetAll(a[1..], key) + GetAll(b, key) == [a[0].1] + (GetAll(a[1..], key) + GetAll(b, key));
      }
    }
  }

  /** No entry of `fd` is named `key`. */
  predicate Absent(fd: FormData, key: string) {
    forall i :: 0 <= i < |fd| ==> fd[i].0 != key
  }

  lemma {:induction false} LookupAbsent(fd: FormData, key: string)
    requires Absent(fd, key)
    ensures Get(fd, key).None? && GetAll(fd, key) == []
  {
    if fd != [] {
      LookupAbsent(fd[1..], key);
    }
  }
}
