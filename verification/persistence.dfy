/** On-disk side of a player instance: the file-name sanitiser, the permission
    file names tried by Load, the line reading of a permission file, and the
    file system itself (a map from file name to the file's lines). */
module Persistence {

  /** The four characters FileReadyStripName removes from an identifier. */
  predicate Unsafe(c: char)
  {
    c == '\\' || c == '/' || c == '=' || c == '+'
  }

  /** `s` with every occurrence of `c` replaced by the empty string (the
      script string's Replace with an empty replacement). */
  function RemoveAll(s: string, c: char): (r: string)
    ensures forall x :: x in r <==> x in s && x != c
    ensures |r| <= |s|
  {
    if s == [] then []
    else (if s[0] == c then [] else [s[0]]) + RemoveAll(s[1..], c)
  }

  /** JMPlayerInstance.FileReadyStripName: removes backslash, slash, '=' and
      '+', in that order, so the identifier can be used as a file name. */
  function FileReadyStripName(name: string): (r: string)
    ensures forall x :: x in r ==> !Unsafe(x)
    ensures forall x :: x in name && !Unsafe(x) ==> x in r
  {
    RemoveAll(RemoveAll(RemoveAll(RemoveAll(name, '\\'), '/'), '='), '+')
  }

  /** Reference definition: one pass over `s` keeping the characters that are
      not unsafe, in their original order. */
  function SafeChars(s: string): (r: string)
  {
    if s == [] then []
    else (if Unsafe(s[0]) then [] else [s[0]]) + SafeChars(s[1..])
  }

  lemma {:induction false} RemoveAllDistributes(a: string, b: string, c: char)
    ensures RemoveAll(a + b, c) == RemoveAll(a, c) + RemoveAll(b, c)
  {
    if a == [] {
      assert a + b == b;
    } else {
      assert (a + b)[0] == a[0];
      assert (a + b)[1..] == a[1..] + b;
      RemoveAllDistributes(a[1..], b, c);
    }
  }

  /** The four successive removals keep exactly the safe characters, in order. */
  lemma {:induction false} StripKeepsSafeCharsInOrder(name: string)
    ensures FileReadyStripName(name) == SafeChars(name)
  {
    if name != [] {
      var head, tail := [name[0]], name[1..];
      assert name == head + tail;
      StripKeepsSafeCharsInOrder(tail);
      var a := RemoveAll(head, '\\');
      var b := RemoveAll(a, '/');
      var c := RemoveAll(b, '=');
      RemoveAllDistributes(head, tail, '\\');
      RemoveAllDistributes(a, RemoveAll(tail, '\\'), '/');
      RemoveAllDistributes(b, RemoveAll(RemoveAll(tail, '\\'), '/'), '=');
      RemoveAllDistributes(c, RemoveAll(RemoveAll(RemoveAll(tail, '\\'), '/'), '='), '+');
      assert RemoveAll(c, '+') == if Unsafe(name[0]) then [] else [name[0]];
    }
  }

  lemma {:induction false} SafeCharsOfSafeString(s: string)
    requires forall x :: x in s ==> !Unsafe(x)
    ensures SafeChars(s) == s
  {
    if s != [] {
      assert s[0] in s;
      SafeCharsOfSafeString(s[1..]);
    }
  }

  /** Stripping a name that was already stripped changes nothing. */
  lemma StripIsIdempotent(name: string)
    ensures FileReadyStripName(FileReadyStripName(name)) == FileReadyStripName(name)
  {
    var once := FileReadyStripName(name);
    StripKeepsSafeCharsInOrder(once);
    SafeCharsOfSafeString(once);
  }

  /** The JMConstants values the file names are built from, and the identity
      an offline mission uses. Their actual text is not part of this model. */
  datatype Constants = Constants(
    dirPermissions: string, extPermission: string, extWindowsDefault: string,
    offlineGuid: string, offlineSteam: string, offlineName: string)

  /** The current permission file of an identifier. */
  function PermissionFile(c: Constants, id: string): (r: string)
  {
    c.dirPermissions + FileReadyStripName(id) + c.extPermission
  }

  /** The files Load tries, in order: the GUID file, its backup-suffixed
      legacy copy, the Steam64 file and its backup-suffixed legacy copy. */
  function Candidates(c: Constants, guid: string, steam64Id: string): (r: seq<string>)
  {
    [ PermissionFile(c, guid), PermissionFile(c, guid) + c.extWindowsDefault,
      PermissionFile(c, steam64Id), PermissionFile(c, steam64Id) + c.extWindowsDefault ]
  }

  /** The position of the first candidate that exists, or |candidates| if none does. */
  function FirstReadable(files: map<string, seq<string>>, candidates: seq<string>): (k: nat)
    ensures k <= |candidates|
    ensures k < |candidates| ==> candidates[k] in files
    ensures forall i :: 0 <= i < k ==> candidates[i] !in files
  {
    if candidates == [] then 0
    else if candidates[0] in files then 0
    else 1 + FirstReadable(files, candidates[1..])
  }

  /** The engine's FGets on a file of `lines` positioned at line `i`: the
      number of characters of that line, or -1 at the end of the file. */
  function FGets(lines: seq<string>, i: nat): (r: int)
  {
    if i < |lines| then |lines[i]| else -1
  }

  /** The lines the read loop of ReadPermissions collects: it stops as soon as
      FGets returns a count that is not positive, so at the end of the file or
      at the first empty line. */
  function LinesUntilBlank(lines: seq<string>): (r: seq<string>)
    ensures r <= lines
    ensures forall i :: 0 <= i < |r| ==> r[i] != ""
    ensures |r| < |lines| ==> lines[|r|] == ""
  {
    if lines == [] || lines[0] == "" then []
    else [lines[0]] + LinesUntilBlank(lines[1..])
  }

  /** The lines before position `n` are what the read loop collects when they
      are all non-empty and line `n` is empty or the end of the file. */
  lemma {:induction false} LinesUntilBlankStopsAt(lines: seq<string>, n: nat)
    requires n <= |lines|
    requires forall k :: 0 <= k < n ==> lines[k] != ""
    requires n == |lines| || lines[n] == ""
    ensures LinesUntilBlank(lines) == lines[..n]
  {
    if n > 0 {
      LinesUntilBlankStopsAt(lines[1..], n - 1);
      assert lines[..n] == [lines[0]] + lines[1..][..n - 1];
    }
  }

  /** A file without empty lines is read back completely; one with an empty
      line is read only up to it. */
  lemma LinesUntilBlankOfFullFile(lines: seq<string>)
    ensures (forall i :: 0 <= i < |lines| ==> lines[i] != "") ==> LinesUntilBlank(lines) == lines
    ensures (exists i :: 0 <= i < |lines| && lines[i] == "") ==> |LinesUntilBlank(lines)| < |lines|
  {
  }

  /** Which of four candidates is the first that exists, case by case. */
  lemma ChainPosition(files: map<string, seq<string>>, cands: seq<string>)
    requires |cands| == 4
    ensures cands[0] in files ==> FirstReadable(files, cands) == 0
    ensures cands[0] !in files && cands[1] in files ==> FirstReadable(files, cands) == 1
    ensures cands[0] !in files && cands[1] !in files && cands[2] in files ==> FirstReadable(files, cands) == 2
    ensures cands[0] !in files && cands[1] !in files && cands[2] !in files && cands[3] in files ==>
              FirstReadable(files, cands) == 3
    ensures cands[0] !in files && cands[1] !in files && cands[2] !in files && cands[3] !in files ==>
              FirstReadable(files, cands) == 4
  {
  }

  /** The lines Load adds from the first existing candidate (none if no candidate exists). */
  function Recovered(files: map<string, seq<string>>, candidates: seq<string>): (r: seq<string>)
  {
    var k := FirstReadable(files, candidates);
    if k < |candidates| then LinesUntilBlank(files[candidates[k]]) else []
  }

  /** The files after Load's migration step: the file that was read is
      deleted when it was not the first candidate. */
  function Migrated(files: map<string, seq<string>>, candidates: seq<string>): (r: map<string, seq<string>>)
  {
    var k := FirstReadable(files, candidates);
    if 0 < k < |candidates| then files - {candidates[k]} else files
  }

  /** Migration deletes at most one file, never the current one, and only the
      fallback file whose lines were recovered; when the current file exists
      nothing is deleted. */
  lemma MigrationDeletesOnlyTheFallbackRead(files: map<string, seq<string>>, candidates: seq<string>)
    requires |candidates| > 0
    ensures Migrated(files, candidates).Keys <= files.Keys
    ensures candidates[0] in files ==> Migrated(files, candidates) == files
    ensures forall f :: f in files && f !in Migrated(files, candidates) ==>
              0 < FirstReadable(files, candidates) < |candidates| && f == candidates[FirstReadable(files, candidates)]
              && f != candidates[0] && Recovered(files, candidates) == LinesUntilBlank(files[f])
    ensures forall f :: f in Migrated(files, candidates) ==> Migrated(files, candidates)[f] == files[f]
  {
  }

  /** When only the Steam64 file exists among the candidates, Load reads it
      and deletes it. */
  lemma FallbackToSteamFile(files: map<string, seq<string>>, c: Constants, guid: string, steam64Id: string)
    requires Candidates(c, guid, steam64Id)[0] !in files
    requires Candidates(c, guid, steam64Id)[1] !in files
    requires PermissionFile(c, steam64Id) in files
    ensures Recovered(files, Candidates(c, guid, steam64Id)) == LinesUntilBlank(files[PermissionFile(c, steam64Id)])
    ensures Migrated(files, Candidates(c, guid, steam64Id)) == files - {PermissionFile(c, steam64Id)}
  {
    var cs := Candidates(c, guid, steam64Id);
    assert cs[1..][1..][0] == PermissionFile(c, steam64Id);
  }

  /** When no candidate exists, Load adds nothing and deletes nothing. */
  lemma NoFileNoChange(files: map<string, seq<string>>, candidates: seq<string>)
    requires forall i :: 0 <= i < |candidates| ==> candidates[i] !in files
    ensures Recovered(files, candidates) == []
    ensures Migrated(files, candidates) == files
  {
  }

  /** The file system the engine offers: file names mapped to their lines. */
  class Disk {
    var files: map<string, seq<string>>

    constructor (files: map<string, seq<string>>)
      ensures this.files == files
    {
      this.files := files;
    }

    predicate FileExist(name: string)
      reads this
    {
      name in files
    }

    method DeleteFile(name: string)
      modifies this
      ensures files == old(files) - {name}
    {
      files := files - {name};
    }

    /** Opening a file for writing creates it empty or truncates it. */
    method OpenForWrite(name: string)
      modifies this
      ensures files == old(files)[name := []]
    {
      files := files[name := []];
    }

    /** FPrintln on an open file appends one line. */
    method FPrintln(name: string, line: string)
      requires name in files
      modifies this
      ensures files == old(files)[name := old(files)[name] + [line]]
    {
      files := files[name := files[name] + [line]];
    }
  }
}
