/**
 * The account record of config.py and the per-account storage-state path
 * that orchestrator.py and actions.py both derive from the settings:
 * `<cwd>/<storage_state_dir>/<account_name>.json` when storage state is
 * enabled, else none.
 */
module Accounts {
  import opened Wrappers
  import opened Text

  /** An `AccountCredentials` record. */
  datatype Account = Account(accountName: string, username: string, password: string)

  /** The settings the path depends on, and the working directory. */
  datatype StorageSettings = StorageSettings(enabled: bool, cwd: string, dir: string)

  predicate IsAbsolute(p: string) {
    p != [] && p[0] == '/'
  }

  predicate EndsWithSlash(p: string) {
    p != [] && p[|p| - 1] == '/'
  }

  predicate EndsWith(s: string, suffix: string) {
    |suffix| <= |s| && s[|s| - |suffix|..] == suffix
  }

  /**
   * `os.path.join(a, b)` on POSIX: an absolute `b` replaces `a`; otherwise
   * `b` is appended, with a separator unless `a` is empty or ends in one.
   */
  function Join(a: string, b: string): (r: string)
    ensures EndsWith(r, b)
    ensures IsAbsolute(b) ==> r == b
    ensures !IsAbsolute(b) ==> StartsWith(r, a) && |a| + |b| <= |r| <= |a| + |b| + 1
    ensures !IsAbsolute(b) && a != [] && !EndsWithSlash(a) ==> r == a + "/" + b
  {
    if IsAbsolute(b) then b
    else if a == [] || EndsWithSlash(a) then a + b
    else a + "/" + b
  }

  const JsonSuffix: string := ".json"

  /** The storage-state file of account `name` (orchestrator.py:47-51, actions.py:40-44 and 76-80). */
  function StoragePath(store: StorageSettings, name: string): (p: Option<string>)
    ensures p.Some? <==> store.enabled
    ensures p.Some? ==> EndsWith(p.value, name + JsonSuffix) && p.value != ""
  {
    if store.enabled then Some(Join(Join(store.cwd, store.dir), name + JsonSuffix)) else None
  }

  /**
   * For a working directory as `os.getcwd()` returns it, a relative
   * directory setting and an account name without a leading slash, the
   * path is `<cwd>/<dir>/<name>.json`.
   */
  lemma StoragePathLayout(store: StorageSettings, name: string)
    requires store.enabled
    requires IsAbsolute(store.cwd) && !EndsWithSlash(store.cwd)
    requires store.dir != [] && !IsAbsolute(store.dir) && !EndsWithSlash(store.dir)
    requires !IsAbsolute(name)
    ensures StoragePath(store, name) == Some(store.cwd + "/" + store.dir + "/" + name + JsonSuffix)
  {
    var d := Join(store.cwd, store.dir);
    assert d == store.cwd + "/" + store.dir;
    assert d[|d| - 1] == store.dir[|store.dir| - 1];
    assert !IsAbsolute(name + JsonSuffix) by {
      assert name == [] || (name + JsonSuffix)[0] == name[0];
    }
    assert Join(d, name + JsonSuffix) == d + "/" + (name + JsonSuffix);
    assert d + "/" + (name + JsonSuffix) == store.cwd + "/" + store.dir + "/" + name + JsonSuffix;
  }

  /** An account name with a leading slash is not kept inside the storage directory. */
  lemma AbsoluteNameEscapesDir(store: StorageSettings, name: string)
    requires store.enabled && IsAbsolute(name)
    ensures StoragePath(store, name) == Some(name + JsonSuffix)
  {
    assert (name + JsonSuffix)[0] == name[0];
  }
}
