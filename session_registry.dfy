/** The per-session dataset registry: the two parallel lists `df_list` and
    `profilers`, the scratch copies written next to them, and what one
    batch of uploads does to them (pages/compare_CSVs.py), together with the
    name lookups the pages perform (pages/analyse_data.py). */
module SessionRegistry {
  import opened Collections
  import opened DataUtils

  function Names<T>(entries: seq<(string, T)>): seq<string> {
    seq(|entries|, i requires 0 <= i < |entries| => entries[i].0)
  }

  /** `next(v for name, v in entries if name == wanted)`: the value of the
      first entry carrying the name. The caller must know the name is there;
      otherwise Python raises StopIteration. */
  function Lookup<T>(entries: seq<(string, T)>, name: string): (r: T)
    requires name in Names(entries)
    ensures exists i | 0 <= i < |entries| ::
      entries[i] == (name, r) && forall j | 0 <= j < i :: entries[j].0 != name
  {
    assert Names(entries[1..]) == Names(entries)[1..];
    if entries[0].0 == name then entries[0].1
    else
      var r := Lookup(entries[1..], name);
      assert exists i | 0 <= i < |entries| ::
        entries[i] == (name, r) && forall j | 0 <= j < i :: entries[j].0 != name
      by {
        var k :| 0 <= k < |entries[1..]| && entries[1..][k] == (name, r)
                 && forall j | 0 <= j < k :: entries[1..][j].0 != name;
        assert entries[k + 1] == (name, r);
        forall j | 0 <= j < k + 1 ensures entries[j].0 != name {
          if j > 0 { assert entries[j] == entries[1..][j - 1]; }
        }
      }
      r
  }

  /** With distinct names, the lookup finds the one entry with that name. */
  lemma LookupUnique<T>(entries: seq<(string, T)>, i: nat)
    requires Unique(Names(entries)) && i < |entries|
    ensures entries[i].0 in Names(entries)
    ensures Lookup(entries, entries[i].0) == entries[i].1
  {
    assert Names(entries)[i] == entries[i].0;
    var r := Lookup(entries, entries[i].0);
    var k :| 0 <= k < |entries| && entries[k] == (entries[i].0, r)
             && forall j | 0 <= j < k :: entries[j].0 != entries[i].0;
    assert Names(entries)[k] == Names(entries)[i];
  }

  /** Appending an entry does not change what an existing name finds. */
  lemma {:induction false} LookupAppendKnown<T>(s: seq<(string, T)>, e: (string, T), name: string)
    requires name in Names(s)
    ensures name in Names(s + [e])
    ensures Lookup(s + [e], name) == Lookup(s, name)
  {
    assert Names(s + [e]) == Names(s) + [e.0];
    if s[0].0 != name {
      assert Names(s[1..]) == Names(s)[1..];
      assert (s + [e])[1..] == s[1..] + [e];
      LookupAppendKnown(s[1..], e, name);
    }
  }

  /** Appending an entry under a new name makes that name find it. */
  lemma {:induction false} LookupAppendNew<T>(s: seq<(string, T)>, name: string, v: T)
    requires name !in Names(s)
    ensures name in Names(s + [(name, v)])
    ensures Lookup(s + [(name, v)], name) == v
  {
    assert Names(s + [(name, v)]) == Names(s) + [name];
    if s != [] {
      assert Names(s)[0] == s[0].0;
      assert Names(s[1..]) == Names(s)[1..];
      assert (s + [(name, v)])[1..] == s[1..] + [(name, v)];
      LookupAppendNew(s[1..], name, v);
    }
  }

  /** The registry invariant: dataset names are pairwise distinct, and the
      profiler list runs parallel to the dataset list, the i-th profiler
      having the i-th name and being bound to the i-th dataset. */
  predicate RegistryOk(dfList: seq<(string, Frame)>, profilers: seq<(string, Profiler)>) {
    && Unique(Names(dfList))
    && |profilers| == |dfList|
    && forall i | 0 <= i < |dfList| :: profilers[i] == (dfList[i].0, Profiler(dfList[i].1))
  }

  /** The profiler lookup of the analysis page succeeds whenever the dataset
      lookup does, and yields the profiler bound to the dataset found. */
  lemma ProfilerLookup(dfList: seq<(string, Frame)>, profilers: seq<(string, Profiler)>, name: string)
    requires RegistryOk(dfList, profilers)
    requires name in Names(dfList)
    ensures name in Names(profilers)
    ensures Lookup(profilers, name) == Profiler(Lookup(dfList, name))
  {
    var t := Lookup(dfList, name);
    var i :| 0 <= i < |dfList| && dfList[i] == (name, t)
             && forall j | 0 <= j < i :: dfList[j].0 != name;
    assert Names(profilers)[i] == name;
    var p := Lookup(profilers, name);
    var k :| 0 <= k < |profilers| && profilers[k] == (name, p)
             && forall j | 0 <= j < k :: profilers[j].0 != name;
    assert Names(dfList)[k] == Names(dfList)[i];
  }

  // ---------------------------------------------------------------------
  // Uploads

  datatype Upload = Upload(name: string, content: seq<bv8>)

  /** The session's registry state: both lists and the names of the files
      in the scratch directory. */
  datatype Registry = Registry(
    dfList: seq<(string, Frame)>,
    profilers: seq<(string, Profiler)>,
    scratch: set<string>)

  /** The scratch copy of an upload is named after the user and the file. */
  function ScratchName(user: string, name: string): (path: string)
    ensures |path| == |user| + 1 + |name|
    ensures path[..|user|] == user && path[|user|] == '_' && path[|user| + 1..] == name
  {
    user + "_" + name
  }

  /** An upload gets through when its content parses and its scratch copy
      can be written. */
  predicate Admissible(f: Upload, user: string, parse: seq<bv8> -> Option<Frame>, canWrite: string -> bool) {
    parse(f.content).Some? && canWrite(ScratchName(user, f.name))
  }

  /** One iteration of the upload loop: a name already registered is
      skipped; otherwise the file is parsed, its profiler built and its
      scratch copy written, and only then are both lists extended. A parse
      or write failure leaves everything as it was. */
  function AddUpload(r: Registry, f: Upload, user: string,
                     parse: seq<bv8> -> Option<Frame>, canWrite: string -> bool): (r': Registry)
    ensures f.name in Names(r.dfList) ==> r' == r
    ensures !Admissible(f, user, parse, canWrite) ==> r' == r
    ensures f.name !in Names(r.dfList) && Admissible(f, user, parse, canWrite) ==>
      var df := parse(f.content).value;
      && r'.dfList == r.dfList + [(f.name, df)]
      && r'.profilers == r.profilers + [(f.name, Profiler(df))]
      && r'.scratch == r.scratch + {ScratchName(user, f.name)}
  {
    if f.name in Names(r.dfList) then r
    else
      match parse(f.content)
      case None => r
      case Some(df) =>
        var path := ScratchName(user, f.name);
        if canWrite(path) then
          Registry(r.dfList + [(f.name, df)], r.profilers + [(f.name, Profiler(df))], r.scratch + {path})
        else r
  }

  /** The whole loop over a batch of uploads, file by file in order: each
      file adds at most one entry, to both lists at once. */
  function Batch(r: Registry, files: seq<Upload>, user: string,
                 parse: seq<bv8> -> Option<Frame>, canWrite: string -> bool): (r': Registry)
    ensures |r'.dfList| <= |r.dfList| + |files| && |r'.profilers| <= |r.profilers| + |files|
    ensures |r'.dfList| - |r.dfList| == |r'.profilers| - |r.profilers|
  {
    if files == [] then r
    else AddUpload(Batch(r, files[..|files| - 1], user, parse, canWrite), files[|files| - 1], user, parse, canWrite)
  }

  lemma AddUploadKeepsRegistryOk(r: Registry, f: Upload, user: string,
                                 parse: seq<bv8> -> Option<Frame>, canWrite: string -> bool)
    requires RegistryOk(r.dfList, r.profilers)
    ensures RegistryOk(AddUpload(r, f, user, parse, canWrite).dfList, AddUpload(r, f, user, parse, canWrite).profilers)
  {
    var r' := AddUpload(r, f, user, parse, canWrite);
    if r' != r {
      assert Names(r'.dfList) == Names(r.dfList) + [f.name];
    }
  }

  /** The batch keeps the registry invariant: however many files of one
      batch share a name, the names stay distinct and both lists stay
      parallel. */
  lemma {:induction false} BatchKeepsRegistryOk(r: Registry, files: seq<Upload>, user: string,
                                                parse: seq<bv8> -> Option<Frame>, canWrite: string -> bool)
    requires RegistryOk(r.dfList, r.profilers)
    ensures RegistryOk(Batch(r, files, user, parse, canWrite).dfList, Batch(r, files, user, parse, canWrite).profilers)
  {
    if files != [] {
      BatchKeepsRegistryOk(r, files[..|files| - 1], user, parse, canWrite);
      AddUploadKeepsRegistryOk(Batch(r, files[..|files| - 1], user, parse, canWrite), files[|files| - 1], user, parse, canWrite);
    }
  }

  /** The batch only appends: earlier entries keep their place and value,
      and no scratch file disappears. */
  lemma {:induction false} BatchExtends(r: Registry, files: seq<Upload>, user: string,
                                        parse: seq<bv8> -> Option<Frame>, canWrite: string -> bool)
    ensures r.dfList <= Batch(r, files, user, parse, canWrite).dfList
    ensures r.profilers <= Batch(r, files, user, parse, canWrite).profilers
    ensures r.scratch <= Batch(r, files, user, parse, canWrite).scratch
  {
    if files != [] {
      BatchExtends(r, files[..|files| - 1], user, parse, canWrite);
    }
  }

  /** Every entry the batch adds comes from a file of the batch that parsed
      to that very dataset and whose scratch copy was written under the
      user's name; the scratch directory gains no other file. */
  lemma {:induction false} BatchSound(r: Registry, files: seq<Upload>, user: string,
                                      parse: seq<bv8> -> Option<Frame>, canWrite: string -> bool)
    ensures var r' := Batch(r, files, user, parse, canWrite);
      forall k | |r.dfList| <= k < |r'.dfList| ::
        && ScratchName(user, r'.dfList[k].0) in r'.scratch
        && exists i | 0 <= i < |files| ::
             && files[i].name == r'.dfList[k].0
             && Admissible(files[i], user, parse, canWrite)
             && parse(files[i].content).value == r'.dfList[k].1
    ensures var r' := Batch(r, files, user, parse, canWrite);
      forall path | path in r'.scratch ::
        path in r.scratch || exists k | |r.dfList| <= k < |r'.dfList| :: path == ScratchName(user, r'.dfList[k].0)
  {
    if files != [] {
      var pre := files[..|files| - 1];
      var last := files[|files| - 1];
      var rp := Batch(r, pre, user, parse, canWrite);
      var r' := Batch(r, files, user, parse, canWrite);
      BatchSound(r, pre, user, parse, canWrite);
      BatchExtends(r, pre, user, parse, canWrite);
      assert r' == AddUpload(rp, last, user, parse, canWrite);
      forall k | |r.dfList| <= k < |r'.dfList|
        ensures && ScratchName(user, r'.dfList[k].0) in r'.scratch
                && exists i | 0 <= i < |files| ::
                     && files[i].name == r'.dfList[k].0
                     && Admissible(files[i], user, parse, canWrite)
                     && parse(files[i].content).value == r'.dfList[k].1
      {
        if k < |rp.dfList| {
          assert r'.dfList[k] == rp.dfList[k];
          var i :| 0 <= i < |pre| && pre[i].name == rp.dfList[k].0
                   && Admissible(pre[i], user, parse, canWrite)
                   && parse(pre[i].content).value == rp.dfList[k].1;
          assert files[i] == pre[i];
        } else {
          assert files[|files| - 1] == last;
        }
      }
      forall path | path in r'.scratch
        ensures path in r.scratch || exists k | |r.dfList| <= k < |r'.dfList| :: path == ScratchName(user, r'.dfList[k].0)
      {
        if path in rp.scratch && path !in r.scratch {
          var k :| |r.dfList| <= k < |rp.dfList| && path == ScratchName(user, rp.dfList[k].0);
          assert r'.dfList[k] == rp.dfList[k];
        } else if path !in rp.scratch {
          assert r'.dfList[|rp.dfList|].0 == last.name;
        }
      }
    }
  }

  /** Every file of the batch that parses and can be written ends up
      registered under its name: either it was added, or an entry with that
      name was already there. */
  lemma {:induction false} BatchComplete(r: Registry, files: seq<Upload>, user: string,
                                         parse: seq<bv8> -> Option<Frame>, canWrite: string -> bool)
    ensures forall i | 0 <= i < |files| && Admissible(files[i], user, parse, canWrite) ::
      files[i].name in Names(Batch(r, files, user, parse, canWrite).dfList)
  {
    if files != [] {
      var pre := files[..|files| - 1];
      var last := files[|files| - 1];
      var rp := Batch(r, pre, user, parse, canWrite);
      var r' := Batch(r, files, user, parse, canWrite);
      BatchComplete(r, pre, user, parse, canWrite);
      assert r' == AddUpload(rp, last, user, parse, canWrite);
      assert Names(rp.dfList) <= Names(r'.dfList);
      forall i | 0 <= i < |files| && Admissible(files[i], user, parse, canWrite)
        ensures files[i].name in Names(r'.dfList)
      {
        if i < |pre| {
          assert files[i] == pre[i];
          var k :| 0 <= k < |Names(rp.dfList)| && Names(rp.dfList)[k] == files[i].name;
          assert Names(r'.dfList)[k] == files[i].name;
        } else if last.name !in Names(rp.dfList) {
          assert Names(r'.dfList)[|rp.dfList|] == last.name;
        } else {
          var k :| 0 <= k < |Names(rp.dfList)| && Names(rp.dfList)[k] == last.name;
          assert Names(r'.dfList)[k] == last.name;
        }
      }
    }
  }

  /** First upload wins: for a name not registered before the batch, the
      dataset registered under it is the one parsed from the first file of
      the batch with that name that gets through; later files with the same
      name are skipped. */
  lemma {:induction false} BatchFirstWins(r: Registry, files: seq<Upload>, user: string,
                                          parse: seq<bv8> -> Option<Frame>, canWrite: string -> bool, i: nat)
    requires i < |files| && Admissible(files[i], user, parse, canWrite)
    requires files[i].name !in Names(r.dfList)
    requires forall j | 0 <= j < i && files[j].name == files[i].name :: !Admissible(files[j], user, parse, canWrite)
    ensures files[i].name in Names(Batch(r, files, user, parse, canWrite).dfList)
    ensures Lookup(Batch(r, files, user, parse, canWrite).dfList, files[i].name) == parse(files[i].content).value
  {
    var n := files[i].name;
    var pre := files[..|files| - 1];
    var last := files[|files| - 1];
    var rp := Batch(r, pre, user, parse, canWrite);
    var r' := Batch(r, files, user, parse, canWrite);
    assert r' == AddUpload(rp, last, user, parse, canWrite);
    if i < |pre| {
      assert pre[i] == files[i];
      BatchFirstWins(r, pre, user, parse, canWrite, i);
      if r' != rp {
        assert last.name !in Names(rp.dfList);
        LookupAppendKnown(rp.dfList, (last.name, parse(last.content).value), n);
      }
    } else {
      assert last == files[i];
      BatchSound(r, pre, user, parse, canWrite);
      BatchExtends(r, pre, user, parse, canWrite);
      forall k | 0 <= k < |rp.dfList| ensures rp.dfList[k].0 != n {
        if k < |r.dfList| {
          assert r.dfList[k] == rp.dfList[k];
          assert Names(r.dfList)[k] == r.dfList[k].0;
        } else {
          var j :| 0 <= j < |pre| && pre[j].name == rp.dfList[k].0 && Admissible(pre[j], user, parse, canWrite)
                   && parse(pre[j].content).value == rp.dfList[k].1;
          assert files[j] == pre[j];
        }
      }
      LookupAppendNew(rp.dfList, n, parse(last.content).value);
    }
  }
}
