/** Filename-conflict resolution (util/filesystem_util.hpp).

    A path is held as the three components `std::filesystem::path` yields
    (parent path, stem, extension), and the file system as the finite set of
    paths that exist. */
module FilesystemUtil {
  import opened Text

  datatype FilePath = FilePath(parent: string, stem: string, extension: string)

  /** The separator `operator/` inserts on the Windows target. */
  const Separator: char := '\\'

  /** The text of a path: parent and file name joined by the separator. */
  function PathText(p: FilePath): string
  {
    (if p.parent == "" then "" else p.parent + [Separator]) + p.stem + p.extension
  }

  /** `parent / (stem + "_" + N + extension)`. */
  function Candidate(original: FilePath, n: nat): (c: FilePath)
    ensures c.parent == original.parent && c.extension == original.extension
    ensures c.stem == original.stem + "_" + NatText(n)
  {
    FilePath(original.parent, original.stem + "_" + NatText(n), original.extension)
  }

  /** Different sequence numbers give different candidates. */
  lemma CandidateInjective(original: FilePath, j: nat, k: nat)
    requires Candidate(original, j) == Candidate(original, k)
    ensures j == k
  {
    var prefix := original.stem + "_";
    assert prefix + NatText(j) == prefix + NatText(k);
    assert NatText(j) == (prefix + NatText(j))[|prefix|..];
    assert NatText(k) == (prefix + NatText(k))[|prefix|..];
    NatTextInjective(j, k);
  }

  /** What the function promises: an absent original is kept; otherwise the
      answer is the candidate with the smallest N >= 1 that does not exist. */
  ghost predicate IsResolution(existing: set<FilePath>, original: FilePath, r: FilePath)
  {
    if original !in existing then r == original
    else exists n: nat :: 1 <= n && r == Candidate(original, n) && r !in existing
                          && forall k: nat :: 1 <= k < n ==> Candidate(original, k) in existing
  }

  /** There is only one resolution: the answer is determined by the file
      system and the original path. */
  lemma ResolutionIsUnique(existing: set<FilePath>, original: FilePath, r1: FilePath, r2: FilePath)
    requires IsResolution(existing, original, r1) && IsResolution(existing, original, r2)
    ensures r1 == r2
  {
    if original in existing {
      var n1: nat :| 1 <= n1 && r1 == Candidate(original, n1) && r1 !in existing
                    && forall k: nat :: 1 <= k < n1 ==> Candidate(original, k) in existing;
      var n2: nat :| 1 <= n2 && r2 == Candidate(original, n2) && r2 !in existing
                    && forall k: nat :: 1 <= k < n2 ==> Candidate(original, k) in existing;
      if n1 < n2 {
        assert false;
      } else if n2 < n1 {
        assert false;
      }
    }
  }

  /** `solve_filename_conflict`: the original if it does not exist, else the
      first `stem_N.ext` (N = 1, 2, ...) that does not exist. The search ends
      because each tried candidate is a distinct existing path. */
  method SolveFilenameConflict(existing: set<FilePath>, original: FilePath) returns (r: FilePath)
    ensures IsResolution(existing, original, r)
    ensures r !in existing
    ensures original in existing ==> r.parent == original.parent && r.extension == original.extension
  {
    if original !in existing {
      return original;
    }
    var sequenceNum: nat := 1;
    var candidate := Candidate(original, sequenceNum);
    ghost var untried := existing;
    while candidate in existing
      invariant 1 <= sequenceNum && candidate == Candidate(original, sequenceNum)
      invariant untried <= existing
      invariant forall k: nat :: 1 <= k < sequenceNum ==> Candidate(original, k) in existing
      invariant forall k: nat :: 1 <= k < sequenceNum ==> Candidate(original, k) !in untried
      invariant forall c :: c in existing && c !in untried ==>
        exists k: nat :: 1 <= k < sequenceNum && c == Candidate(original, k)
      invariant candidate in existing ==> candidate in untried
      decreases |untried|
    {
      untried := untried - {candidate};
      sequenceNum := sequenceNum + 1;
      candidate := Candidate(original, sequenceNum);
      if candidate in existing && candidate !in untried {
        var k: nat :| 1 <= k < sequenceNum && candidate == Candidate(original, k);
        CandidateInjective(original, k, sequenceNum);
        assert false;
      }
    }
    r := candidate;
  }
}
