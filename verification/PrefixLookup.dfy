// Looking up objects by abbreviated hash: the fanout scan, which skips directories that cannot
// match, and the commit argument built on it. Here a hash is its 64 hex digits, and the store is
// what a directory listing shows, stray files and odd names included.
module PrefixLookup {
  import opened Wrappers

  const HEX_LENGTH: nat := 64
  const SHORT_LENGTH: nat := 12

  datatype Dir = Dir(name: string, files: seq<string>)

  /** A file's path spells a hash exactly if it is 64 hex digits, two of them the directory's name. */
  lemma {:induction false} ScanFinds(disk: seq<Dir>, x: string)
    ensures x in FullScan(disk) <==>
              exists dir, file :: dir in disk && file in dir.files && Spells(dir, file, x)
    decreases |disk|
  {
    if disk != [] {
      ScanFinds(disk[1..], x);
      DirFinds(disk[0], disk[0].files, x);
      assert forall d :: d in disk <==> d == disk[0] || d in disk[1..];
    }
  }

  ghost predicate Spells(dir: Dir, file: string, x: string) {
    && |dir.name| == 2 && |dir.name + file| == 64 && (forall c | c in dir.name + file :: c in HEX)
    && x == Lower(dir.name + file)
  }

  lemma {:induction false} DirFinds(dir: Dir, files: seq<string>, x: string)
    ensures x in HashesIn(dir, files) <==> exists file :: file in files && Spells(dir, file, x)
    decreases |files|
  {
    if files != [] {
      DirFinds(dir, files[1..], x);
      PathSpells(dir, files[0], x);
      assert forall f :: f in files <==> f == files[0] || f in files[1..];
    }
  }

  lemma PathSpells(dir: Dir, file: string, x: string)
    ensures HashAt(dir, file) == Some(x) <==> Spells(dir, file, x)
  {
    LowerConcat(dir.name, file);
    HexIs(dir.name + file);
    LowerHexIff(dir.name);
    LowerHexIff(dir.name + file);
    assert AllHex(dir.name + file) ==> AllHex(dir.name) by {
      assert forall c | c in dir.name :: c in dir.name + file;
    }
  }

  lemma LowerHexIff(s: string)
    ensures AllHex(Lower(s)) <==> AllHex(s)
  {
    forall i | 0 <= i < |s|
      ensures s[i] in s && Lower(s)[i] in Lower(s) && (HexDigit(Lower(s)[i]) <==> HexDigit(s[i]))
    {}
    if AllHex(Lower(s)) {
      forall c | c in s ensures HexDigit(c) {
        var i :| 0 <= i < |s| && s[i] == c;
        assert Lower(s)[i] in Lower(s);
      }
    }
    if AllHex(s) {
      LowerKeepsHex(s);
    }
  }

  predicate HexDigit(c: char) {
    '0' <= c <= '9' || 'a' <= c <= 'f' || 'A' <= c <= 'F'
  }

  predicate AllHex(s: string) {
    forall c | c in s :: HexDigit(c)
  }

  function LowerChar(c: char): char {
    if 'A' <= c <= 'Z' then c - 'A' + 'a' else c
  }

  function Lower(s: string): (r: string)
    ensures |r| == |s| && forall i | 0 <= i < |s| :: r[i] == LowerChar(s[i])
  {
    if s == "" then "" else [LowerChar(s[0])] + Lower(s[1..])
  }

  /** The hash a file's path spells, if it spells one. */
  function HashAt(dir: Dir, file: string): Option<string> {
    var full := Lower(dir.name) + Lower(file);
    if |dir.name| == 2 && AllHex(Lower(dir.name)) && |full| == HEX_LENGTH && AllHex(full) then Some(full) else None
  }

  function HashesIn(dir: Dir, files: seq<string>): seq<string> {
    if files == [] then []
    else (if HashAt(dir, files[0]).Some? then [HashAt(dir, files[0]).value] else []) + HashesIn(dir, files[1..])
  }

  /** Every stored hash, by looking at every file of every directory. */
  function FullScan(disk: seq<Dir>): seq<string> {
    if disk == [] then [] else HashesIn(disk[0], disk[0].files) + FullScan(disk[1..])
  }

  function Matching(hashes: seq<string>, p: string -> bool): seq<string> {
    if hashes == [] then [] else (if p(hashes[0]) then [hashes[0]] else []) + Matching(hashes[1..], p)
  }

  function StartsWith(prefix: string): string -> bool {
    (h: string) => prefix <= h
  }

  lemma {:induction false} MatchingConcat(a: seq<string>, b: seq<string>, p: string -> bool)
    ensures Matching(a + b, p) == Matching(a, p) + Matching(b, p)
    decreases |a|
  {
    if a == [] {
      assert a + b == b;
    } else {
      assert (a + b)[1..] == a[1..] + b;
      MatchingConcat(a[1..], b, p);
    }
  }

  lemma {:induction false} FullScanConcat(a: seq<Dir>, b: seq<Dir>)
    ensures FullScan(a + b) == FullScan(a) + FullScan(b)
    decreases |a|
  {
    if a == [] {
      assert a + b == b;
    } else {
      assert (a + b)[1..] == a[1..] + b;
      FullScanConcat(a[1..], b);
    }
  }

  lemma {:induction false} HashesInConcat(dir: Dir, a: seq<string>, b: seq<string>)
    ensures HashesIn(dir, a + b) == HashesIn(dir, a) + HashesIn(dir, b)
    decreases |a|
  {
    if a == [] {
      assert a + b == b;
    } else {
      assert (a + b)[1..] == a[1..] + b;
      HashesInConcat(dir, a[1..], b);
    }
  }

  function Min(a: nat, b: nat): nat { if a < b then a else b }

  /** A directory whose name is not hex, or disagrees with the prefix's first two digits, holds no match. */
  lemma {:induction false} PrunedHoldsNothing(dir: Dir, files: seq<string>, prefix: string)
    requires |dir.name| != 2 || !AllHex(Lower(dir.name)) || !(prefix[..Min(|prefix|, 2)] <= Lower(dir.name))
    ensures Matching(HashesIn(dir, files), StartsWith(prefix)) == []
    decreases |files|
  {
    if files != [] {
      PrunedHoldsNothing(dir, files[1..], prefix);
      var h, rest := HashAt(dir, files[0]), HashesIn(dir, files[1..]);
      if h.Some? {
        if prefix <= h.value {
          FanoutPrefix(Lower(dir.name), Lower(files[0]), prefix);
          assert false;
        }
        MatchingConcat([h.value], rest, StartsWith(prefix));
        assert Matching([h.value], StartsWith(prefix)) == Matching([], StartsWith(prefix));
      } else {
        assert [] + rest == rest;
      }
    }
  }

  lemma FanoutPrefix(dirName: string, rest: string, prefix: string)
    requires |dirName| == 2 && prefix <= dirName + rest
    ensures prefix[..Min(|prefix|, 2)] <= dirName
  {}

  /** The matches in one directory, file by file. */
  method ScanDir(dir: Dir, prefix: string) returns (found: seq<string>)
    requires |dir.name| == 2 && AllHex(Lower(dir.name))
    ensures found == Matching(HashesIn(dir, dir.files), StartsWith(prefix))
  {
    found := [];
    for i := 0 to |dir.files|
      invariant found == Matching(HashesIn(dir, dir.files[..i]), StartsWith(prefix))
    {
      assert dir.files[..i + 1] == dir.files[..i] + [dir.files[i]];
      HashesInConcat(dir, dir.files[..i], [dir.files[i]]);
      MatchingConcat(HashesIn(dir, dir.files[..i]), HashesIn(dir, [dir.files[i]]), StartsWith(prefix));
      var full := Lower(dir.name) + Lower(dir.files[i]);
      if |full| == HEX_LENGTH && prefix <= full && AllHex(full) {
        found := found + [full];
      }
    }
    assert dir.files[..|dir.files|] == dir.files;
  }

  /** The fanout scan. It gives exactly what filtering a scan of the whole store would give, for every
      prefix, the empty one and a single digit included. */
  method ResolvePrefix(disk: seq<Dir>, given: string) returns (found: seq<string>)
    ensures found == if AllHex(Lower(given)) then Matching(FullScan(disk), StartsWith(Lower(given))) else []
  {
    var prefix := Lower(given);
    if !AllHex(prefix) {
      return [];
    }
    found := [];
    for i := 0 to |disk|
      invariant found == Matching(FullScan(disk[..i]), StartsWith(prefix))
    {
      var dir := disk[i];
      assert disk[..i + 1] == disk[..i] + [dir];
      FullScanConcat(disk[..i], [dir]);
      assert FullScan([dir]) == HashesIn(dir, dir.files);
      MatchingConcat(FullScan(disk[..i]), HashesIn(dir, dir.files), StartsWith(prefix));
      var dirName := Lower(dir.name);
      if |dirName| != 2 || !AllHex(dirName) || !(prefix[..Min(|prefix|, 2)] <= dirName) {
        PrunedHoldsNothing(dir, dir.files, prefix);
        continue;
      }
      var here := ScanDir(dir, prefix);
      found := found + here;
    }
    assert disk[..|disk|] == disk;
  }

  datatype ParseError = NotAHash | NoMatch | Ambiguous(candidates: seq<string>)

  /** What an argument means: a full hash as given, or the one stored commit an abbreviation matches. */
  function Meant(disk: seq<Dir>, isCommit: string -> bool, s: string): Result<string, ParseError> {
    if |s| == HEX_LENGTH then if AllHex(s) then Ok(Lower(s)) else Err(NotAHash)
    else if s == "" || !AllHex(s) then Err(NotAHash)
    else
      var commits := Matching(Matching(FullScan(disk), StartsWith(Lower(s))), isCommit);
      if commits == [] then Err(NoMatch) else if |commits| == 1 then Ok(commits[0]) else Err(Ambiguous(commits))
  }

  const HEX := "0123456789abcdefABCDEF"

  /** Whether a stored hash is a commit that `s` may abbreviate. */
  function Abbreviated(isCommit: string -> bool, s: string): (p: string -> bool)
    ensures forall h :: p(h) <==> Lower(s) <= h && isCommit(h)
  {
    (h: string) => Lower(s) <= h && isCommit(h)
  }

  /** Entry `i` is the only one that satisfies `p`. */
  ghost predicate Sole(all: seq<string>, p: string -> bool, i: int) {
    0 <= i < |all| && p(all[i]) && forall j | 0 <= j < |all| && p(all[j]) :: j == i
  }

  lemma {:induction false} MatchingSole(all: seq<string>, p: string -> bool)
    ensures Matching(all, p) == [] <==> forall i | 0 <= i < |all| :: !p(all[i])
    ensures |Matching(all, p)| == 1 <==> exists i :: Sole(all, p, i)
    ensures forall i | Sole(all, p, i) :: Matching(all, p) == [all[i]]
    decreases |all|
  {
    if all != [] {
      var rest := all[1..];
      MatchingSole(rest, p);
      forall i | 0 < i < |all| ensures all[i] == rest[i - 1] {}
      if p(all[0]) {
        if Matching(rest, p) == [] {
          assert Sole(all, p, 0);
        }
        forall i | Sole(all, p, i) ensures i == 0 && Matching(rest, p) == [] {
          forall j | 0 <= j < |rest| ensures !p(rest[j]) { assert rest[j] == all[j + 1]; }
        }
        if Matching(rest, p) != [] {
          var j :| 0 <= j < |rest| && p(rest[j]);
          assert p(all[j + 1]);
        }
      } else {
        forall i ensures Sole(all, p, i + 1) <==> Sole(rest, p, i) {
          SoleFurther(all, p, i);
        }
        forall i | Sole(all, p, i) ensures Sole(rest, p, i - 1) { SoleFurther(all, p, i - 1); }
      }
    }
  }

  lemma SoleFurther(all: seq<string>, p: string -> bool, i: int)
    requires all != [] && !p(all[0])
    ensures Sole(all, p, i + 1) <==> Sole(all[1..], p, i)
  {
    var rest := all[1..];
    if Sole(rest, p, i) {
      forall j | 0 <= j < |all| && p(all[j]) ensures j == i + 1 { assert all[j] == rest[j - 1]; }
    }
    if Sole(all, p, i + 1) {
      forall j | 0 <= j < |rest| && p(rest[j]) ensures j == i { assert rest[j] == all[j + 1]; }
    }
  }

  lemma {:induction false} MatchingTwice(all: seq<string>, s: string, isCommit: string -> bool)
    ensures Matching(Matching(all, StartsWith(Lower(s))), isCommit) == Matching(all, Abbreviated(isCommit, s))
    decreases |all|
  {
    if all != [] {
      MatchingTwice(all[1..], s, isCommit);
      var near := Matching(all[1..], StartsWith(Lower(s)));
      if Lower(s) <= all[0] {
        MatchingConcat([all[0]], near, isCommit);
        assert Matching([all[0]], isCommit) == if isCommit(all[0]) then [all[0]] else [];
      } else {
        assert [] + near == near;
      }
    }
  }

  lemma {:induction false} MatchingCounts(all: seq<string>, p: string -> bool, x: string)
    ensures multiset(Matching(all, p))[x] == if p(x) then multiset(all)[x] else 0
    decreases |all|
  {
    if all != [] {
      MatchingCounts(all[1..], p, x);
      assert all == [all[0]] + all[1..];
    }
  }

  lemma HexIs(s: string)
    ensures AllHex(s) <==> forall c | c in s :: c in HEX
  {
    forall c: char ensures HexDigit(c) <==> c in HEX {
      HexIndex(c);
    }
  }

  lemma HexIndex(c: char)
    ensures HexDigit(c) ==> c in HEX
  {
    if '0' <= c <= '9' { assert HEX[c as int - '0' as int] == c; }
    if 'a' <= c <= 'f' { assert HEX[10 + c as int - 'a' as int] == c; }
    if 'A' <= c <= 'F' { assert HEX[16 + c as int - 'A' as int] == c; }
  }

  /** The answer for an abbreviation, `p` saying which of the stored hashes it may mean: none does, exactly
      one file does, or each that does is a candidate, as often as it is stored. */
  ghost predicate Decides(all: seq<string>, p: string -> bool, r: Result<string, ParseError>) {
    && (r == Err(NoMatch) <==> forall i | 0 <= i < |all| :: !p(all[i]))
    && (r.Ok? <==> exists i :: Sole(all, p, i))
    && (forall i | Sole(all, p, i) :: r == Ok(all[i]))
    && (r.Ok? || r == Err(NoMatch) || (r.error.Ambiguous? && ListsAll(all, p, r.error.candidates)))
  }

  ghost predicate ListsAll(all: seq<string>, p: string -> bool, candidates: seq<string>) {
    forall x :: multiset(candidates)[x] == if p(x) then multiset(all)[x] else 0
  }

  lemma CommitsDecide(all: seq<string>, p: string -> bool, r: Result<string, ParseError>)
    requires var commits := Matching(all, p);
             r == if commits == [] then Err(NoMatch)
                  else if |commits| == 1 then Ok(commits[0]) else Err(Ambiguous(commits))
    ensures Decides(all, p, r)
  {
    MatchingSole(all, p);
    forall x ensures multiset(Matching(all, p))[x] == if p(x) then multiset(all)[x] else 0 {
      MatchingCounts(all, p, x);
    }
  }

  method KeepCommits(candidates: seq<string>, isCommit: string -> bool) returns (commits: seq<string>)
    ensures commits == Matching(candidates, isCommit)
  {
    commits := [];
    for i := 0 to |candidates|
      invariant commits == Matching(candidates[..i], isCommit)
    {
      assert candidates[..i + 1] == candidates[..i] + [candidates[i]];
      MatchingConcat(candidates[..i], [candidates[i]], isCommit);
      if isCommit(candidates[i]) {
        commits := commits + [candidates[i]];
      }
    }
    assert candidates[..|candidates|] == candidates;
  }

  /** A full hash is taken as given, whatever is stored. Anything else must be a non-empty string of hex
      digits: the one stored commit it abbreviates, or a refusal that says why, with every candidate. */
  method ParseCommitHash(disk: seq<Dir>, isCommit: string -> bool, s: string) returns (r: Result<string, ParseError>)
    ensures r == Meant(disk, isCommit, s)
    ensures |s| == 64 ==> r == if forall c | c in s :: c in HEX then Ok(Lower(s)) else Err(NotAHash)
    ensures |s| != 64 ==> (r == Err(NotAHash) <==> s == "" || !forall c | c in s :: c in HEX)
    ensures |s| != 64 && r != Err(NotAHash) ==> Decides(FullScan(disk), Abbreviated(isCommit, s), r)
  {
    HexIs(s);
    if |s| == HEX_LENGTH {
      return if AllHex(s) then Ok(Lower(s)) else Err(NotAHash);
    }
    if s == "" || !AllHex(s) {
      return Err(NotAHash);
    }
    LowerKeepsHex(s);
    var candidates := ResolvePrefix(disk, s);
    var commits := KeepCommits(candidates, isCommit);
    r := if commits == [] then Err(NoMatch) else if |commits| == 1 then Ok(commits[0]) else Err(Ambiguous(commits));
    MatchingTwice(FullScan(disk), s, isCommit);
    CommitsDecide(FullScan(disk), Abbreviated(isCommit, s), r);
  }

  lemma LowerKeepsHex(s: string)
    requires AllHex(s)
    ensures AllHex(Lower(s))
  {
    forall c | c in Lower(s) ensures HexDigit(c) {
      var i :| 0 <= i < |s| && Lower(s)[i] == c;
      assert s[i] in s;
    }
  }

  function ShortHash(h: string): (short: string)
    requires |h| == HEX_LENGTH
    ensures short <= h && |short| == 12
  {
    h[..SHORT_LENGTH]
  }

  lemma {:induction false} MatchingIs(hashes: seq<string>, p: string -> bool, x: string)
    ensures x in Matching(hashes, p) <==> x in hashes && p(x)
    decreases |hashes|
  {
    if hashes != [] {
      MatchingIs(hashes[1..], p, x);
      assert hashes == [hashes[0]] + hashes[1..];
    }
  }

  ghost predicate Distinct(hashes: seq<string>) {
    forall i, j | 0 <= i < j < |hashes| :: hashes[i] != hashes[j]
  }

  lemma {:induction false} MatchingDistinct(hashes: seq<string>, p: string -> bool)
    requires Distinct(hashes)
    ensures Distinct(Matching(hashes, p))
    decreases |hashes|
  {
    if hashes != [] {
      var rest := Matching(hashes[1..], p);
      MatchingDistinct(hashes[1..], p);
      MatchingIs(hashes[1..], p, hashes[0]);
      forall i | 0 <= i < |hashes[1..]| ensures hashes[1..][i] != hashes[0] { assert hashes[i + 1] == hashes[1..][i]; }
    }
  }

  lemma {:induction false} LowerIdempotent(s: string)
    ensures Lower(Lower(s)) == Lower(s)
    decreases |s|
  {
    if s != "" {
      assert Lower(s)[1..] == Lower(s[1..]);
      LowerIdempotent(s[1..]);
    }
  }

  lemma LowerConcat(a: string, b: string)
    ensures Lower(a + b) == Lower(a) + Lower(b)
  {}

  /** Stored hashes are spelled in lower-case hex. */
  lemma {:induction false} HashesAreLower(dir: Dir, files: seq<string>, h: string)
    requires h in HashesIn(dir, files)
    ensures |h| == HEX_LENGTH && AllHex(h) && Lower(h) == h
    decreases |files|
  {
    if HashAt(dir, files[0]) == Some(h) {
      LowerIdempotent(dir.name);
      LowerIdempotent(files[0]);
      LowerConcat(Lower(dir.name), Lower(files[0]));
    } else {
      HashesAreLower(dir, files[1..], h);
    }
  }

  lemma {:induction false} ScannedAreLower(disk: seq<Dir>, h: string)
    requires h in FullScan(disk)
    ensures |h| == HEX_LENGTH && AllHex(h) && Lower(h) == h
    decreases |disk|
  {
    if h in HashesIn(disk[0], disk[0].files) {
      HashesAreLower(disk[0], disk[0].files, h);
    } else {
      ScannedAreLower(disk[1..], h);
    }
  }

  lemma ShortIsLower(h: string)
    requires |h| == HEX_LENGTH && AllHex(h) && Lower(h) == h
    ensures AllHex(ShortHash(h)) && Lower(ShortHash(h)) == ShortHash(h)
  {
    assert forall c | c in ShortHash(h) :: c in h;
    forall i | 0 <= i < SHORT_LENGTH ensures Lower(ShortHash(h))[i] == ShortHash(h)[i] {
      assert ShortHash(h)[i] == h[i] && Lower(h)[i] == LowerChar(h[i]);
    }
  }

  /** The stored commits an abbreviation of `h` may mean. */
  function Candidates(disk: seq<Dir>, isCommit: string -> bool, h: string): seq<string>
    requires |h| == HEX_LENGTH
  {
    Matching(Matching(FullScan(disk), StartsWith(ShortHash(h))), isCommit)
  }

  /** A short hash, given as an argument, leads back to its commit exactly when one stored file matches
      it: no other stored commit shares it, and no second file spells the same hash. */
  lemma ShortHashInverts(disk: seq<Dir>, isCommit: string -> bool, h: string)
    requires |h| == HEX_LENGTH && h in FullScan(disk) && isCommit(h)
    ensures Meant(disk, isCommit, ShortHash(h)) == Ok(h) <==> |Candidates(disk, isCommit, h)| == 1
    ensures |Candidates(disk, isCommit, h)| == 1 ==>
              forall x | x in FullScan(disk) && isCommit(x) && ShortHash(h) <= x :: x == h
    ensures Distinct(FullScan(disk))
            && (forall x | x in FullScan(disk) && isCommit(x) && ShortHash(h) <= x :: x == h) ==>
              |Candidates(disk, isCommit, h)| == 1
  {
    ScannedAreLower(disk, h);
    ShortIsLower(h);
    var near := Matching(FullScan(disk), StartsWith(ShortHash(h)));
    var commits := Candidates(disk, isCommit, h);
    forall x ensures x in commits <==> x in FullScan(disk) && ShortHash(h) <= x && isCommit(x) {
      MatchingIs(FullScan(disk), StartsWith(ShortHash(h)), x);
      MatchingIs(near, isCommit, x);
    }
    assert h in commits;
    if Distinct(FullScan(disk)) && (forall x | x in FullScan(disk) && isCommit(x) && ShortHash(h) <= x :: x == h) {
      MatchingDistinct(FullScan(disk), StartsWith(ShortHash(h)));
      MatchingDistinct(near, isCommit);
      forall i | 0 <= i < |commits| ensures commits[i] == h { assert commits[i] in commits; }
      OnlyOne(commits, h);
    }
  }

  lemma OnlyOne(s: seq<string>, h: string)
    requires Distinct(s) && h in s && forall i | 0 <= i < |s| :: s[i] == h
    ensures s == [h]
  {
    var i :| 0 <= i < |s| && s[i] == h;
    forall j | 0 <= j < |s| ensures s[j] == h && j == i {}
    assert s[0] == h && s[|s| - 1] == h;
  }
}
