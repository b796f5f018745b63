/// `linkBytecode` of `helpers/contracts-helpers.ts`: splicing library
/// addresses into the placeholders of compiled bytecode.
module Linker {
  import opened Base

  /// One placeholder: `length` bytes at byte offset `start` of the code
  /// that follows the `0x` prefix.
  datatype Fixup = Fixup(start: nat, length: nat)

  /// A compiled artifact: hex bytecode and, per source file and library
  /// name, the placeholders to fill.
  datatype Artifact = Artifact(bytecode: string, linkReferences: Dict<Dict<seq<Fixup>>>)

  function Min(a: nat, b: nat): nat { if a < b then a else b }

  /// `s.substr(from, count)` for non-negative arguments.
  function Substr(s: string, from: nat, count: nat): string
  {
    var b := Min(from, |s|);
    s[b..Min(b + count, |s|)]
  }

  /// `s.substr(from)`.
  function SubstrFrom(s: string, from: nat): string
  {
    s[Min(from, |s|)..]
  }

  /// The first hex character of the placeholder, and the one after it.
  function FixupBegin(f: Fixup): nat { 2 + 2 * f.start }
  function FixupEnd(f: Fixup): nat { 2 + 2 * (f.start + f.length) }

  /// One assignment in the innermost loop of `linkBytecode`.
  function ApplyFixup(code: string, addr: Address, f: Fixup): string
  {
    Substr(code, 0, FixupBegin(f)) + SubstrFrom(addr, 2) + SubstrFrom(code, FixupEnd(f))
  }

  /// All placeholders of one library, in order.
  function LinkFixups(code: string, addr: Address, fixups: seq<Fixup>): string
  {
    if fixups == [] then code
    else ApplyFixup(LinkFixups(code, addr, fixups[..|fixups| - 1]), addr, fixups[|fixups| - 1])
  }

  /// All libraries of one file, in order; a library `libraries` does not
  /// name is skipped.
  function LinkLibs(code: string, refs: Dict<seq<Fixup>>, libraries: Dict<Address>): string
  {
    if refs == [] then code
    else
      var prev := LinkLibs(code, refs[..|refs| - 1], libraries);
      var (libName, fixups) := refs[|refs| - 1];
      match Get(libraries, libName)
      case None => prev
      case Some(addr) => LinkFixups(prev, addr, fixups)
  }

  /// All files, in order.
  function LinkFiles(code: string, files: Dict<Dict<seq<Fixup>>>, libraries: Dict<Address>): string
  {
    if files == [] then code
    else LinkLibs(LinkFiles(code, files[..|files| - 1], libraries), files[|files| - 1].1, libraries)
  }

  /// `linkBytecode(artifact, libraries)`: rewrites the bytecode placeholder
  /// by placeholder, file by file and library by library.
  method LinkBytecode(artifact: Artifact, libraries: Dict<Address>) returns (bytecode: string)
    ensures bytecode == LinkFiles(artifact.bytecode, artifact.linkReferences, libraries)
  {
    bytecode := artifact.bytecode;
    var files := artifact.linkReferences;
    for i := 0 to |files|
      invariant bytecode == LinkFiles(artifact.bytecode, files[..i], libraries)
    {
      assert files[..i + 1][..i] == files[..i];
      var fileReferences := files[i].1;
      var fileStart := bytecode;
      for j := 0 to |fileReferences|
        invariant bytecode == LinkLibs(fileStart, fileReferences[..j], libraries)
      {
        assert fileReferences[..j + 1][..j] == fileReferences[..j];
        var (libName, fixups) := fileReferences[j];
        var addr := Get(libraries, libName);
        if addr.Some? {
          var libStart := bytecode;
          for k := 0 to |fixups|
            invariant bytecode == LinkFixups(libStart, addr.value, fixups[..k])
          {
            assert fixups[..k + 1][..k] == fixups[..k];
            bytecode := ApplyFixup(bytecode, addr.value, fixups[k]);
          }
          assert fixups[..|fixups|] == fixups;
        }
      }
      assert fileReferences[..|fileReferences|] == fileReferences;
    }
    assert files[..|files|] == files;
  }

  // ---------------------------------------------------------------------
  // Properties

  /// No library of `files` is named in `libraries`.
  predicate NoKnownLibrary(files: Dict<Dict<seq<Fixup>>>, libraries: Dict<Address>)
  {
    forall i, j :: 0 <= i < |files| && 0 <= j < |files[i].1| ==>
      files[i].1[j].0 !in Keys(libraries)
  }

  lemma {:induction false} LinkLibsUnknown(code: string, refs: Dict<seq<Fixup>>, libraries: Dict<Address>)
    requires forall j :: 0 <= j < |refs| ==> refs[j].0 !in Keys(libraries)
    ensures LinkLibs(code, refs, libraries) == code
  {
    if refs != [] {
      LinkLibsUnknown(code, refs[..|refs| - 1], libraries);
    }
  }

  /// A reference to a library `libraries` does not name is left as it is:
  /// when none is named, the bytecode comes back unchanged.
  lemma {:induction false} LinkFilesUnknown(code: string, files: Dict<Dict<seq<Fixup>>>, libraries: Dict<Address>)
    requires NoKnownLibrary(files, libraries)
    ensures LinkFiles(code, files, libraries) == code
  {
    if files != [] {
      var n := |files| - 1;
      LinkFilesUnknown(code, files[..n], libraries);
      LinkLibsUnknown(code, files[n].1, libraries);
    }
  }

  /// One placeholder: what precedes it (the `0x` prefix included) and what
  /// follows it are kept, and the address without its `0x` sits in between.
  lemma ApplyFixupEffect(code: string, addr: Address, f: Fixup)
    requires 2 <= |addr| && FixupEnd(f) <= |code|
    ensures ApplyFixup(code, addr, f) ==
            code[..FixupBegin(f)] + addr[2..] + code[FixupEnd(f)..]
    ensures |ApplyFixup(code, addr, f)| == |code| - 2 * f.length + |addr| - 2
    ensures ApplyFixup(code, addr, f)[..2] == code[..2]
  {
  }

  /// A standard placeholder (20 bytes) filled with a 42-character address:
  /// the length is kept, the placeholder range reads the address digits and
  /// every other character is unchanged.
  predicate StandardFixup(codeLength: nat, f: Fixup)
  {
    f.length == 20 && FixupEnd(f) <= codeLength
  }

  predicate InFixup(f: Fixup, i: int)
  {
    FixupBegin(f) <= i < FixupEnd(f)
  }

  lemma ApplyFixupChars(code: string, addr: Address, f: Fixup)
    requires |addr| == 42 && StandardFixup(|code|, f)
    ensures |ApplyFixup(code, addr, f)| == |code|
    ensures forall i :: 0 <= i < |code| ==>
              ApplyFixup(code, addr, f)[i] == if InFixup(f, i) then addr[i - 2 * f.start] else code[i]
  {
    ApplyFixupEffect(code, addr, f);
  }

  /// Placeholders of one library that do not overlap.
  predicate Disjoint(fixups: seq<Fixup>)
  {
    forall a, b :: 0 <= a < b < |fixups| ==>
      FixupEnd(fixups[a]) <= FixupBegin(fixups[b]) || FixupEnd(fixups[b]) <= FixupBegin(fixups[a])
  }

  lemma {:induction false} LinkFixupsInside(code: string, addr: Address, fixups: seq<Fixup>, k: nat, i: int)
    requires |addr| == 42 && Disjoint(fixups) && FixupsStandard(|code|, fixups)
    requires k < |fixups| && InFixup(fixups[k], i)
    ensures |LinkFixups(code, addr, fixups)| == |code|
    ensures i - 2 * fixups[k].start < |addr| && i < |code|
    ensures LinkFixups(code, addr, fixups)[i] == addr[i - 2 * fixups[k].start]
  {
    var n := |fixups| - 1;
    var pre := fixups[..n];
    LinkFixupsLength(code, addr, pre);
    var mid := LinkFixups(code, addr, pre);
    assert StandardFixup(|code|, fixups[k]);
    ApplyFixupChars(mid, addr, fixups[n]);
    if k < n {
      assert pre[k] == fixups[k];
      LinkFixupsInside(code, addr, pre, k, i);
    }
  }

  lemma {:induction false} LinkFixupsOutside(code: string, addr: Address, fixups: seq<Fixup>, i: int)
    requires |addr| == 42 && FixupsStandard(|code|, fixups) && 0 <= i < |code|
    requires forall k :: 0 <= k < |fixups| ==> !InFixup(fixups[k], i)
    ensures |LinkFixups(code, addr, fixups)| == |code|
    ensures LinkFixups(code, addr, fixups)[i] == code[i]
  {
    if fixups != [] {
      var n := |fixups| - 1;
      var pre := fixups[..n];
      LinkFixupsOutside(code, addr, pre, i);
      ApplyFixupChars(LinkFixups(code, addr, pre), addr, fixups[n]);
    }
  }

  /// Character `i` of `s` is the address digit placeholder `f` puts there.
  predicate AddressDigitAt(s: string, addr: Address, f: Fixup, i: int)
  {
    0 <= i < |s| && 0 <= i - 2 * f.start < |addr| && s[i] == addr[i - 2 * f.start]
  }

  /// After linking one library whose placeholders are standard and do not
  /// overlap, every placeholder holds the address digits and every other
  /// character is the original one.
  lemma LinkFixupsChars(code: string, addr: Address, fixups: seq<Fixup>)
    requires |addr| == 42 && Disjoint(fixups) && FixupsStandard(|code|, fixups)
    ensures |LinkFixups(code, addr, fixups)| == |code|
    ensures forall k, i :: 0 <= k < |fixups| && InFixup(fixups[k], i) ==>
              AddressDigitAt(LinkFixups(code, addr, fixups), addr, fixups[k], i)
    ensures forall i :: 0 <= i < |code| && (forall k :: 0 <= k < |fixups| ==> !InFixup(fixups[k], i)) ==>
              LinkFixups(code, addr, fixups)[i] == code[i]
  {
    LinkFixupsLength(code, addr, fixups);
    forall k, i | 0 <= k < |fixups| && InFixup(fixups[k], i)
      ensures AddressDigitAt(LinkFixups(code, addr, fixups), addr, fixups[k], i)
    {
      LinkFixupsInside(code, addr, fixups, k, i);
    }
    forall i | 0 <= i < |code| && (forall k :: 0 <= k < |fixups| ==> !InFixup(fixups[k], i))
      ensures LinkFixups(code, addr, fixups)[i] == code[i]
    {
      LinkFixupsOutside(code, addr, fixups, i);
    }
  }

  // Length preservation over whole artifacts.

  predicate FixupsStandard(codeLength: nat, fixups: seq<Fixup>)
  {
    forall k :: 0 <= k < |fixups| ==> StandardFixup(codeLength, fixups[k])
  }

  predicate RefsStandard(codeLength: nat, refs: Dict<seq<Fixup>>)
  {
    forall j :: 0 <= j < |refs| ==> FixupsStandard(codeLength, refs[j].1)
  }

  predicate FilesStandard(codeLength: nat, files: Dict<Dict<seq<Fixup>>>)
  {
    forall i :: 0 <= i < |files| ==> RefsStandard(codeLength, files[i].1)
  }

  predicate AddressesStandard(libraries: Dict<Address>)
  {
    forall j :: 0 <= j < |libraries| ==> |libraries[j].1| == 42
  }

  lemma {:induction false} LinkFixupsLength(code: string, addr: Address, fixups: seq<Fixup>)
    requires |addr| == 42 && FixupsStandard(|code|, fixups)
    ensures |LinkFixups(code, addr, fixups)| == |code|
  {
    if fixups != [] {
      var n := |fixups| - 1;
      LinkFixupsLength(code, addr, fixups[..n]);
      ApplyFixupEffect(LinkFixups(code, addr, fixups[..n]), addr, fixups[n]);
    }
  }

  lemma {:induction false} LinkLibsLength(code: string, refs: Dict<seq<Fixup>>, libraries: Dict<Address>)
    requires AddressesStandard(libraries) && RefsStandard(|code|, refs)
    ensures |LinkLibs(code, refs, libraries)| == |code|
  {
    if refs != [] {
      var n := |refs| - 1;
      LinkLibsLength(code, refs[..n], libraries);
      var addr := Get(libraries, refs[n].0);
      if addr.Some? {
        var idx := FindIndex(Keys(libraries), refs[n].0);
        assert addr.value == libraries[idx].1;
        LinkFixupsLength(LinkLibs(code, refs[..n], libraries), addr.value, refs[n].1);
      }
    }
  }

  /// With standard placeholders inside the code and 42-character library
  /// addresses, linking keeps the bytecode length.
  lemma {:induction false} LinkFilesLength(code: string, files: Dict<Dict<seq<Fixup>>>, libraries: Dict<Address>)
    requires AddressesStandard(libraries) && FilesStandard(|code|, files)
    ensures |LinkFiles(code, files, libraries)| == |code|
  {
    if files != [] {
      var n := |files| - 1;
      LinkFilesLength(code, files[..n], libraries);
      LinkLibsLength(LinkFiles(code, files[..n], libraries), files[n].1, libraries);
    }
  }

  /// Libraries are matched by name alone: renaming the files changes nothing.
  lemma {:induction false} LinkFilesIgnoresFileNames(code: string, files: Dict<Dict<seq<Fixup>>>,
                                                     renamed: Dict<Dict<seq<Fixup>>>, libraries: Dict<Address>)
    requires |files| == |renamed|
    requires forall i :: 0 <= i < |files| ==> files[i].1 == renamed[i].1
    ensures LinkFiles(code, files, libraries) == LinkFiles(code, renamed, libraries)
  {
    if files != [] {
      var n := |files| - 1;
      LinkFilesIgnoresFileNames(code, files[..n], renamed[..n], libraries);
    }
  }

  // ---------------------------------------------------------------------
  // Partial linking over a whole artifact

  /// One placeholder of the artifact together with the library it is for.
  datatype Placement = Placement(lib: string, fixup: Fixup)

  function FixupPlacements(lib: string, fixups: seq<Fixup>): (ps: seq<Placement>)
    ensures |ps| == |fixups|
    ensures forall k :: 0 <= k < |fixups| ==> ps[k] == Placement(lib, fixups[k])
  {
    seq(|fixups|, k requires 0 <= k < |fixups| => Placement(lib, fixups[k]))
  }

  function RefPlacements(refs: Dict<seq<Fixup>>): seq<Placement>
  {
    if refs == [] then []
    else RefPlacements(refs[..|refs| - 1]) + FixupPlacements(refs[|refs| - 1].0, refs[|refs| - 1].1)
  }

  /// Every placeholder of the artifact, in the order `linkBytecode` visits
  /// them: file by file, library by library.
  function Placements(files: Dict<Dict<seq<Fixup>>>): seq<Placement>
  {
    if files == [] then []
    else Placements(files[..|files| - 1]) + RefPlacements(files[|files| - 1].1)
  }

  /// The placeholders visited in order, each filled with its library's
  /// address when `libraries` names the library and skipped otherwise.
  function LinkPlacements(code: string, ps: seq<Placement>, libraries: Dict<Address>): string
  {
    if ps == [] then code
    else
      var prev := LinkPlacements(code, ps[..|ps| - 1], libraries);
      match Get(libraries, ps[|ps| - 1].lib)
      case None => prev
      case Some(addr) => ApplyFixup(prev, addr, ps[|ps| - 1].fixup)
  }

  lemma {:induction false} LinkPlacementsAppend(code: string, a: seq<Placement>, b: seq<Placement>,
                                                libraries: Dict<Address>)
    ensures LinkPlacements(code, a + b, libraries) ==
            LinkPlacements(LinkPlacements(code, a, libraries), b, libraries)
  {
    if b == [] {
      assert a + b == a;
    } else {
      var n := |b| - 1;
      assert (a + b)[..|a + b| - 1] == a + b[..n];
      assert (a + b)[|a + b| - 1] == b[n];
      LinkPlacementsAppend(code, a, b[..n], libraries);
    }
  }

  lemma {:induction false} LinkFixupsPlacements(code: string, lib: string, fixups: seq<Fixup>,
                                                libraries: Dict<Address>)
    ensures LinkPlacements(code, FixupPlacements(lib, fixups), libraries) ==
            match Get(libraries, lib)
            case None => code
            case Some(addr) => LinkFixups(code, addr, fixups)
  {
    if fixups != [] {
      var n := |fixups| - 1;
      assert FixupPlacements(lib, fixups)[..n] == FixupPlacements(lib, fixups[..n]);
      LinkFixupsPlacements(code, lib, fixups[..n], libraries);
    }
  }

  lemma {:induction false} LinkLibsPlacements(code: string, refs: Dict<seq<Fixup>>, libraries: Dict<Address>)
    ensures LinkLibs(code, refs, libraries) == LinkPlacements(code, RefPlacements(refs), libraries)
  {
    if refs != [] {
      var n := |refs| - 1;
      LinkLibsPlacements(code, refs[..n], libraries);
      LinkPlacementsAppend(code, RefPlacements(refs[..n]), FixupPlacements(refs[n].0, refs[n].1), libraries);
      LinkFixupsPlacements(LinkLibs(code, refs[..n], libraries), refs[n].0, refs[n].1, libraries);
    }
  }

  /// `linkBytecode`'s three nested loops are one pass over the artifact's
  /// placeholders.
  lemma {:induction false} LinkFilesPlacements(code: string, files: Dict<Dict<seq<Fixup>>>, libraries: Dict<Address>)
    ensures LinkFiles(code, files, libraries) == LinkPlacements(code, Placements(files), libraries)
  {
    if files != [] {
      var n := |files| - 1;
      LinkFilesPlacements(code, files[..n], libraries);
      LinkPlacementsAppend(code, Placements(files[..n]), RefPlacements(files[n].1), libraries);
      LinkLibsPlacements(LinkFiles(code, files[..n], libraries), files[n].1, libraries);
    }
  }

  /// Placeholders that are all standard and pairwise disjoint.
  predicate PlacementsStandard(codeLength: nat, ps: seq<Placement>)
  {
    forall k :: 0 <= k < |ps| ==> StandardFixup(codeLength, ps[k].fixup)
  }

  predicate PlacementsDisjoint(ps: seq<Placement>)
  {
    forall a, b :: 0 <= a < b < |ps| ==>
      FixupEnd(ps[a].fixup) <= FixupBegin(ps[b].fixup) || FixupEnd(ps[b].fixup) <= FixupBegin(ps[a].fixup)
  }

  lemma StandardAddress(libraries: Dict<Address>, lib: string)
    requires AddressesStandard(libraries) && lib in Keys(libraries)
    ensures |Get(libraries, lib).value| == 42
  {
    var idx := FindIndex(Keys(libraries), lib);
    assert Get(libraries, lib).value == libraries[idx].1;
  }

  lemma {:induction false} LinkPlacementsInside(code: string, ps: seq<Placement>, libraries: Dict<Address>,
                                                k: nat, i: int)
    requires AddressesStandard(libraries) && PlacementsStandard(|code|, ps) && PlacementsDisjoint(ps)
    requires k < |ps| && ps[k].lib in Keys(libraries) && InFixup(ps[k].fixup, i)
    ensures |LinkPlacements(code, ps, libraries)| == |code|
    ensures AddressDigitAt(LinkPlacements(code, ps, libraries), Get(libraries, ps[k].lib).value, ps[k].fixup, i)
  {
    var n := |ps| - 1;
    var pre := ps[..n];
    var mid := LinkPlacements(code, pre, libraries);
    assert forall j :: 0 <= j < n ==> pre[j] == ps[j];
    LinkPlacementsLength(code, pre, libraries);
    if k < n {
      LinkPlacementsInside(code, pre, libraries, k, i);
    }
    StandardAddress(libraries, ps[k].lib);
    if ps[n].lib in Keys(libraries) {
      StandardAddress(libraries, ps[n].lib);
      assert StandardFixup(|code|, ps[n].fixup);
      ApplyFixupChars(mid, Get(libraries, ps[n].lib).value, ps[n].fixup);
    }
  }

  lemma {:induction false} LinkPlacementsLength(code: string, ps: seq<Placement>, libraries: Dict<Address>)
    requires AddressesStandard(libraries) && PlacementsStandard(|code|, ps)
    ensures |LinkPlacements(code, ps, libraries)| == |code|
  {
    if ps != [] {
      var n := |ps| - 1;
      LinkPlacementsLength(code, ps[..n], libraries);
      if ps[n].lib in Keys(libraries) {
        StandardAddress(libraries, ps[n].lib);
        assert StandardFixup(|code|, ps[n].fixup);
        ApplyFixupChars(LinkPlacements(code, ps[..n], libraries), Get(libraries, ps[n].lib).value, ps[n].fixup);
      }
    }
  }

  lemma {:induction false} LinkPlacementsOutside(code: string, ps: seq<Placement>, libraries: Dict<Address>, i: int)
    requires AddressesStandard(libraries) && PlacementsStandard(|code|, ps) && 0 <= i < |code|
    requires forall k :: 0 <= k < |ps| && ps[k].lib in Keys(libraries) ==> !InFixup(ps[k].fixup, i)
    ensures |LinkPlacements(code, ps, libraries)| == |code|
    ensures LinkPlacements(code, ps, libraries)[i] == code[i]
  {
    if ps != [] {
      var n := |ps| - 1;
      var pre := ps[..n];
      assert forall k :: 0 <= k < n ==> pre[k] == ps[k];
      LinkPlacementsOutside(code, pre, libraries, i);
      if ps[n].lib in Keys(libraries) {
        StandardAddress(libraries, ps[n].lib);
        assert StandardFixup(|code|, ps[n].fixup);
        ApplyFixupChars(LinkPlacements(code, pre, libraries), Get(libraries, ps[n].lib).value, ps[n].fixup);
      }
    }
  }

  /// Partial linking of a whole artifact whose placeholders are standard
  /// and do not overlap: every placeholder of a library `libraries` names
  /// holds that library's address digits, and every other character,
  /// the placeholders of unnamed libraries included, is the original one.
  lemma LinkFilesChars(code: string, files: Dict<Dict<seq<Fixup>>>, libraries: Dict<Address>)
    requires AddressesStandard(libraries)
    requires PlacementsStandard(|code|, Placements(files)) && PlacementsDisjoint(Placements(files))
    ensures |LinkFiles(code, files, libraries)| == |code|
    ensures forall p, i :: p in Placements(files) && p.lib in Keys(libraries) && InFixup(p.fixup, i) ==>
              AddressDigitAt(LinkFiles(code, files, libraries), Get(libraries, p.lib).value, p.fixup, i)
    ensures forall i :: 0 <= i < |code| &&
                        (forall p :: p in Placements(files) && p.lib in Keys(libraries) ==> !InFixup(p.fixup, i)) ==>
              LinkFiles(code, files, libraries)[i] == code[i]
  {
    var ps := Placements(files);
    LinkFilesPlacements(code, files, libraries);
    LinkPlacementsLength(code, ps, libraries);
    forall p, i | p in ps && p.lib in Keys(libraries) && InFixup(p.fixup, i)
      ensures AddressDigitAt(LinkPlacements(code, ps, libraries), Get(libraries, p.lib).value, p.fixup, i)
    {
      var k :| 0 <= k < |ps| && ps[k] == p;
      LinkPlacementsInside(code, ps, libraries, k, i);
    }
    forall i | 0 <= i < |code| && (forall p :: p in ps && p.lib in Keys(libraries) ==> !InFixup(p.fixup, i))
      ensures LinkPlacements(code, ps, libraries)[i] == code[i]
    {
      assert forall k :: 0 <= k < |ps| ==> ps[k] in ps;
      LinkPlacementsOutside(code, ps, libraries, i);
    }
  }
}
