/** The paths of a send draft (internal/app/desktop_store.go): cleaned, deduplicated, and stored as one JSON
    array whose size is counted as it grows. */
module DraftPaths {

  import opened Common

  const MAX_PATHS := 4096
  const MAX_JSON := 0x10_0000

  // What the platform's path rules make of one path: refused, or a clean path with the key it is compared by
  // and its JSON string.
  datatype Candidate = Refused | Clean(path: string, key: string, json: string)

  predicate AllClean(paths: seq<Candidate>) {
    forall i | 0 <= i < |paths| :: paths[i].Clean?
  }

  predicate HasKey(paths: seq<Candidate>, key: string) {
    exists i :: 0 <= i < |paths| && paths[i].Clean? && paths[i].key == key
  }

  // The first path of each key, in order.
  function Firsts(paths: seq<Candidate>): (r: seq<Candidate>)
    requires AllClean(paths)
    ensures AllClean(r)
  {
    if paths == [] then []
    else
      var init := paths[..|paths| - 1];
      var last := paths[|paths| - 1];
      Firsts(init) + (if HasKey(init, last.key) then [] else [last])
  }

  function Joined(paths: seq<Candidate>): string
    requires AllClean(paths)
  {
    if paths == [] then ""
    else if |paths| == 1 then paths[0].json
    else Joined(paths[..|paths| - 1]) + "," + paths[|paths| - 1].json
  }

  function JsonArray(paths: seq<Candidate>): string
    requires AllClean(paths)
  {
    "[" + Joined(paths) + "]"
  }

  // What a draft may hold: the list as it will be stored fits the metadata limit.
  predicate Storable(paths: seq<Candidate>) {
    |paths| <= MAX_PATHS && AllClean(paths) && |JsonArray(Firsts(paths))| <= MAX_JSON
  }

  lemma JoinedGrows(paths: seq<Candidate>, p: Candidate)
    requires AllClean(paths) && p.Clean?
    ensures |JsonArray(paths + [p])| == |JsonArray(paths)| + |p.json| + (if paths == [] then 0 else 1)
  {
    assert (paths + [p])[..|paths|] == paths;
    if paths == [] {
      assert paths + [p] == [p];
    }
  }

  lemma {:induction false} FirstsShorter(paths: seq<Candidate>, n: nat)
    requires AllClean(paths) && n <= |paths|
    ensures |JsonArray(Firsts(paths[..n]))| <= |JsonArray(Firsts(paths))|
    decreases |paths|
  {
    if n < |paths| {
      var init := paths[..|paths| - 1];
      FirstsShorter(init, n);
      assert init[..n] == paths[..n];
      JoinedGrows(Firsts(init), paths[|paths| - 1]);
      assert Firsts(init) + [] == Firsts(init);
    } else {
      assert paths[..n] == paths;
    }
  }

  /** The list is accepted exactly when every path is clean and the JSON array of the first path of each key
      fits: the running count is the length of that array all along. */
  method NormalizeDraftPaths(paths: seq<Candidate>) returns (result: Option<seq<Candidate>>)
    ensures result.Some? <==> Storable(paths)
    ensures result.Some? ==> result.value == Firsts(paths)
  {
    if |paths| > MAX_PATHS {
      return None;
    }
    var list: seq<Candidate> := [];
    var seen: set<string> := {};
    var bytes := 2;
    for i := 0 to |paths|
      invariant AllClean(paths[..i]) && list == Firsts(paths[..i])
      invariant bytes == |JsonArray(list)| && bytes <= MAX_JSON
      invariant forall key :: key in seen <==> HasKey(paths[..i], key)
    {
      var p := paths[i];
      if p.Refused? {
        return None;
      }
      FirstsSnoc(paths, i);
      if p.key !in seen {
        JoinedGrows(list, p);
        bytes := bytes + |p.json|;
        if list != [] {
          bytes := bytes + 1;
        }
        if bytes > MAX_JSON {
          TooLarge(paths, i + 1);
          return None;
        }
        seen := seen + {p.key};
        list := list + [p];
      }
    }
    assert paths[..|paths|] == paths;
    return Some(list);
  }

  lemma FirstsSnoc(paths: seq<Candidate>, i: nat)
    requires i < |paths| && AllClean(paths[..i]) && paths[i].Clean?
    ensures AllClean(paths[..i + 1])
    ensures Firsts(paths[..i + 1]) == Firsts(paths[..i]) + (if HasKey(paths[..i], paths[i].key) then [] else [paths[i]])
    ensures forall key :: HasKey(paths[..i + 1], key) <==> HasKey(paths[..i], key) || key == paths[i].key
  {
    assert paths[..i + 1] == paths[..i] + [paths[i]];
    assert paths[..i + 1][..i] == paths[..i];
    forall key
      ensures HasKey(paths[..i + 1], key) <==> HasKey(paths[..i], key) || key == paths[i].key
    {
      SnocKeys(paths[..i], paths[i], key);
    }
  }

  lemma TooLarge(paths: seq<Candidate>, n: nat)
    requires n <= |paths| && AllClean(paths[..n]) && |JsonArray(Firsts(paths[..n]))| > MAX_JSON
    ensures !Storable(paths)
  {
    if AllClean(paths) {
      FirstsShorter(paths, n);
    }
  }

  lemma SnocKeys(paths: seq<Candidate>, p: Candidate, key: string)
    requires p.Clean?
    ensures HasKey(paths + [p], key) <==> HasKey(paths, key) || key == p.key
  {
    var all := paths + [p];
    assert all[|paths|] == p && forall i | 0 <= i < |paths| :: all[i] == paths[i];
    if HasKey(paths, key) {
      var i :| 0 <= i < |paths| && paths[i].Clean? && paths[i].key == key;
      assert all[i].key == key;
    }
  }

  lemma {:induction false} FirstsKeys(paths: seq<Candidate>, key: string)
    requires AllClean(paths)
    ensures HasKey(Firsts(paths), key) <==> HasKey(paths, key)
    decreases |paths|
  {
    if paths != [] {
      var init, last := paths[..|paths| - 1], paths[|paths| - 1];
      FirstsKeys(init, key);
      FirstsKeys(init, last.key);
      assert paths == init + [last];
      SnocKeys(init, last, key);
      SnocKeys(Firsts(init), last, key);
      assert Firsts(init) + [] == Firsts(init);
    }
  }

  /** What is stored has every key once, and normalising it again changes nothing. */
  lemma {:induction false} FirstsAreStable(paths: seq<Candidate>)
    requires AllClean(paths)
    ensures var r := Firsts(paths);
            (forall i, j | 0 <= i < j < |r| :: r[i].key != r[j].key) && Firsts(r) == r
    decreases |paths|
  {
    if paths != [] {
      var init, last := paths[..|paths| - 1], paths[|paths| - 1];
      var before := Firsts(init);
      FirstsAreStable(init);
      FirstsKeys(init, last.key);
      if HasKey(init, last.key) {
        assert before + [] == before;
      } else {
        assert forall i | 0 <= i < |before| :: before[i].key != last.key;
        assert (before + [last])[..|before|] == before;
      }
    }
  }
}
