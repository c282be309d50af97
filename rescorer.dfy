/**
 * The lattice-rescoring driver (rescorer.h): the order in which each lattice
 * file is processed, and the two file-name helpers that derive output names.
 * The four per-file steps are abstract in the source; here each one only
 * records that it was called.
 */
module Rescoring {
  import opened Common
  import opened Text

  /** The file name with its ".gz" suffix, if any, taken off. */
  function Stem(fileName: string): (r: string)
    ensures StartsWith(fileName, r)
    ensures EndsWith(fileName, ".gz") ==> |r| == |fileName| - 3
    ensures !EndsWith(fileName, ".gz") ==> r == fileName
  {
    if EndsWith(fileName, ".gz") then fileName[..|fileName| - 3] else fileName
  }

  /** `ExtendedFileName` (rescorer.h:55-60): `extension` goes before a trailing
    * ".gz", which stays last; without one it goes at the end. */
  function ExtendedFileName(fileName: string, extension: string): (r: string)
    ensures |r| == |fileName| + |extension|
    ensures EndsWith(fileName, ".gz") ==> r == Stem(fileName) + extension + ".gz"
    ensures !EndsWith(fileName, ".gz") ==> r == fileName + extension
  {
    Stem(fileName) + extension + (if EndsWith(fileName, ".gz") then ".gz" else "")
  }

  /** The last position of `c` in `s`, as `std::string::rfind` finds it. */
  function LastIndexOf(s: string, c: char): (r: Option<nat>)
    ensures r.Some? ==> r.value < |s| && s[r.value] == c && forall i :: r.value < i < |s| ==> s[i] != c
    ensures r.None? ==> forall i :: 0 <= i < |s| ==> s[i] != c
  {
    if s == [] then None
    else if s[|s| - 1] == c then Some(|s| - 1)
    else LastIndexOf(s[..|s| - 1], c)
  }

  /** `FileNameWithoutExtension` (rescorer.h:62-68): the name up to the last
    * '.' before any ".gz"; with no such '.', `substr(0, npos)` keeps the whole
    * name, ".gz" included. */
  function FileNameWithoutExtension(fileName: string): (r: string)
    ensures StartsWith(fileName, r)
    ensures LastIndexOf(Stem(fileName), '.').None? ==> r == fileName
    ensures LastIndexOf(Stem(fileName), '.').Some? ==>
              |r| == LastIndexOf(Stem(fileName), '.').value && fileName[|r|] == '.'
              && forall i :: |r| < i < |Stem(fileName)| ==> fileName[i] != '.'
  {
    match LastIndexOf(Stem(fileName), '.')
    case None => fileName
    case Some(dot) => fileName[..dot]
  }

  lemma {:induction false} LastIndexOfAfter(s: string, t: string, c: char)
    requires c !in t
    ensures LastIndexOf(s + t, c) == LastIndexOf(s, c)
    decreases |t|
  {
    if t == [] {
      assert s + t == s;
    } else {
      assert (s + t)[|s + t| - 1] == t[|t| - 1];
      assert (s + t)[..|s + t| - 1] == s + t[..|t| - 1];
      LastIndexOfAfter(s, t[..|t| - 1], c);
    }
  }

  /** Naming an output "<name>.<e>" and stripping the extension again gives the
    * name without ".gz", provided `e` holds no '.' and is not "gz" itself. */
  lemma {:induction false} WithoutExtendedName(fileName: string, e: string)
    requires '.' !in e && e != "gz"
    ensures FileNameWithoutExtension(ExtendedFileName(fileName, "." + e)) == Stem(fileName)
  {
    var stem := Stem(fileName);
    var r := ExtendedFileName(fileName, "." + e);
    if EndsWith(fileName, ".gz") {
      assert Stem(r) == stem + "." + e;
    } else {
      assert r == fileName + "." + e;
      // the last three characters of r cannot be ".gz"
      if |e| >= 3 {
        assert r[|r| - 3] == e[|e| - 3] != '.';
      } else if |e| == 2 {
        assert r[|r| - 2..] == e;
      } else if |e| == 1 {
        assert r[|r| - 2] == '.';
      } else {
        assert r[|r| - 1] == '.';
      }
      assert Stem(r) == stem + "." + e;
    }
    LastIndexOfAfter(stem + ".", e, '.');
    assert (stem + ".")[..|stem + "."| - 1] == stem;
    assert r[..|stem|] == stem;
  }

  /** The per-lattice steps `Rescore` drives. */
  datatype Call = Reset | ReadLattice(fileName: string) | RescoreLattice | WriteLattice(fileName: string)

  /** The calls made for one lattice file. */
  function PerFile(fileName: string): seq<Call>
  {
    [Reset, ReadLattice(fileName), RescoreLattice, WriteLattice(fileName)]
  }

  /** The calls made for all files, file after file. */
  function Schedule(fileNames: seq<string>): (r: seq<Call>)
    ensures |r| == 4 * |fileNames|
  {
    if fileNames == [] then [] else Schedule(fileNames[..|fileNames| - 1]) + PerFile(fileNames[|fileNames| - 1])
  }

  /** File i is handled by calls 4i .. 4i+3: reset, read, rescore, write, each
    * on file i's own name. */
  lemma {:induction false} ScheduleAt(fileNames: seq<string>, i: nat)
    requires i < |fileNames|
    ensures Schedule(fileNames)[4 * i..4 * i + 4] == PerFile(fileNames[i])
    decreases |fileNames|
  {
    var n := |fileNames|;
    if i < n - 1 {
      ScheduleAt(fileNames[..n - 1], i);
      assert Schedule(fileNames)[..4 * (n - 1)] == Schedule(fileNames[..n - 1]);
    }
  }

  class Rescorer {
    /** Every step called so far, in order. */
    var calls: seq<Call>

    constructor ()
      ensures calls == []
    {
      calls := [];
    }

    method DoReset()
      modifies this
      ensures calls == old(calls) + [Reset]
    {
      calls := calls + [Reset];
    }

    method DoReadLattice(fileName: string)
      modifies this
      ensures calls == old(calls) + [ReadLattice(fileName)]
    {
      calls := calls + [ReadLattice(fileName)];
    }

    method DoRescoreLattice()
      modifies this
      ensures calls == old(calls) + [RescoreLattice]
    {
      calls := calls + [RescoreLattice];
    }

    method DoWriteLattice(fileName: string)
      modifies this
      ensures calls == old(calls) + [WriteLattice(fileName)]
    {
      calls := calls + [WriteLattice(fileName)];
    }

    /** `Rescore` (rescorer.h:38-47): each file in the given order is reset,
      * read, rescored and written. */
    method Rescore(fileNames: seq<string>)
      modifies this
      ensures calls == old(calls) + Schedule(fileNames)
    {
      var k := 0;
      while k < |fileNames|
        invariant 0 <= k <= |fileNames|
        invariant calls == old(calls) + Schedule(fileNames[..k])
      {
        DoReset();
        DoReadLattice(fileNames[k]);
        DoRescoreLattice();
        DoWriteLattice(fileNames[k]);
        assert fileNames[..k + 1][..k] == fileNames[..k];
        k := k + 1;
      }
      assert fileNames[..k] == fileNames;
    }
  }
}
