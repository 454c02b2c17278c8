/** The backtest datastore's file naming: a session id or summary name is made safe for a file name by
    replacing every character other than a letter, a digit, '-' or '_' with '_'. */
module Datastore {
  import opened Wrappers

  /** A datastore rooted at a directory. */
  datatype Store = Store(baseDir: string)

  /** `base_dir / name` for a plain file name, as text. Unlike `str(Path)`, it does not normalise
      `base_dir`: a trailing slash there gives a doubled slash in the result. */
  function Join(dir: string, name: string): string {
    dir + "/" + name
  }

  /** str.isalnum() on one character, for ASCII letters and digits. */
  predicate IsAlnum(c: char) {
    ('a' <= c <= 'z') || ('A' <= c <= 'Z') || ('0' <= c <= '9')
  }

  /** A character sanitisation keeps. */
  predicate Kept(c: char) {
    IsAlnum(c) || c == '-' || c == '_'
  }

  /** The sanitised name: every character that is not kept becomes '_'. */
  function Safe(name: string): (r: string)
    ensures |r| == |name|
    ensures forall i :: 0 <= i < |name| ==> r[i] == (if Kept(name[i]) then name[i] else '_')
  {
    if name == [] then [] else [if Kept(name[0]) then name[0] else '_'] + Safe(name[1..])
  }

  /** Every character of a sanitised name is kept, and a name made only of kept characters is its own
      sanitisation; so sanitising twice is sanitising once. */
  lemma SafeIdempotent(name: string)
    ensures forall i :: 0 <= i < |Safe(name)| ==> Kept(Safe(name)[i])
    ensures (forall i :: 0 <= i < |name| ==> Kept(name[i])) <==> Safe(name) == name
    ensures Safe(Safe(name)) == Safe(name)
  {
    var s := Safe(name);
    if forall i :: 0 <= i < |name| ==> Kept(name[i]) {
      assert s == name;
    }
    if s == name {
      forall i | 0 <= i < |name| ensures Kept(name[i]) {
        assert s[i] == name[i];
      }
    }
    assert Safe(s) == s;
  }

  /** Sanitisation is not injective: "a/b" and "a.b" both become "a_b". */
  lemma SafeCollides()
    ensures Safe("a/b") == Safe("a.b") == "a_b"
  {
    assert Safe("a/b")[1] == '_';
    assert Safe("a.b")[1] == '_';
  }

  /** _session_path: `base_dir/<safe>.json`, or a ValueError for an empty session id. */
  function SessionPath(store: Store, sessionId: string): (r: Result<string, string>)
    ensures r.Failure? <==> sessionId == ""
    ensures r.Failure? ==> r.error == "session_id is required to persist backtests"
    ensures r.Success? ==> r.value == Join(store.baseDir, Safe(sessionId) + ".json")
  {
    if sessionId == "" then Failure("session_id is required to persist backtests")
    else Success(Join(store.baseDir, Safe(sessionId) + ".json"))
  }

  /** The path save_summary writes: `base_dir/<safe>_summary.json`; an empty name is accepted. */
  function SummaryPath(store: Store, name: string): (p: string)
    ensures |p| == |store.baseDir| + 1 + |name| + |"_summary.json"|
    ensures p[..|store.baseDir| + 1] == store.baseDir + "/"
  {
    Join(store.baseDir, Safe(name) + "_summary.json")
  }

  /** Both paths sit directly in the base directory, and two names give the same path exactly when
      they sanitise alike. */
  lemma PathsMeaning(store: Store, a: string, b: string)
    ensures var p := SummaryPath(store, a);
      && p[..|store.baseDir| + 1] == store.baseDir + "/"
      && |p| == |store.baseDir| + 1 + |a| + |"_summary.json"|
    ensures SummaryPath(store, a) == SummaryPath(store, b) <==> Safe(a) == Safe(b)
    ensures a != "" && b != "" ==> (SessionPath(store, a) == SessionPath(store, b) <==> Safe(a) == Safe(b))
  {
    var pre := store.baseDir + "/";
    if SummaryPath(store, a) == SummaryPath(store, b) {
      SuffixCancels(pre, Safe(a), Safe(b), "_summary.json");
    }
    if a != "" && b != "" && SessionPath(store, a) == SessionPath(store, b) {
      SuffixCancels(pre, Safe(a), Safe(b), ".json");
    }
  }

  lemma SuffixCancels(pre: string, x: string, y: string, suf: string)
    requires pre + (x + suf) == pre + (y + suf)
    ensures x == y
  {
    var l := pre + (x + suf);
    var r := pre + (y + suf);
    assert |x| == |y|;
    assert x == l[|pre|..|pre| + |x|];
    assert y == r[|pre|..|pre| + |y|];
  }
}
