/** Parameter loaders, Sources/Core/SingleBinaryLoader.swift and
    Sources/Core/PerLayerBinaryLoader.swift.

    A loader answers `loadWeights(for: id, modifier:, size:)` with a pointer to
    `size` floats. Reading files from disk is not modelled: a loaded file is
    named by its path and float count, and a pointer by the file and a float
    offset into it. */
module Loaders {
  import opened Wrappers
  import opened Strings

  /** A weight file read into memory: its path and its float count. */
  datatype LoadedFile = LoadedFile(path: string, count: int)

  /** A pointer `file + offset`, in floats. */
  datatype WeightPointer = WeightPointer(file: LoadedFile, offset: int)

  /** Where one `loadWeights` call points and the counter after it: an explicit
      offset for the key is used as is; otherwise the call takes the counter and
      advances it by `size`. */
  function Place(offsets: map<string, int>, key: string, current: int, size: int): (r: (int, int))
    ensures key in offsets ==> r == (offsets[key], current)
    ensures key !in offsets ==> r == (current, current + size)
  {
    if key in offsets then (offsets[key], current) else (current, current + size)
  }

  /** The offsets a sequence of `loadWeights` calls returns, starting from
      counter `start`. */
  function Positions(offsets: map<string, int>, keys: seq<string>, sizes: seq<int>, start: int): (r: seq<int>)
    requires |keys| == |sizes|
    ensures |r| == |keys|
    decreases |keys|
  {
    if keys == [] then []
    else
      var (p, next) := Place(offsets, keys[0], start, sizes[0]);
      [p] + Positions(offsets, keys[1..], sizes[1..], next)
  }

  /** The sum of a list of sizes. */
  function Total(sizes: seq<int>): int
    decreases |sizes|
  {
    if sizes == [] then 0 else sizes[0] + Total(sizes[1..])
  }

  lemma {:induction false} TotalAppend(s: seq<int>, x: int)
    ensures Total(s + [x]) == Total(s) + x
    decreases |s|
  {
    if s != [] {
      assert (s + [x])[1..] == s[1..] + [x];
      TotalAppend(s[1..], x);
    } else {
      assert [x][1..] == [];
    }
  }

  /** Calls without explicit offsets lay the parameters out back to back: the
      i-th call starts where the previous ones end. */
  lemma {:induction false} ImplicitLayoutContiguous(offsets: map<string, int>, keys: seq<string>, sizes: seq<int>, start: int)
    requires |keys| == |sizes|
    requires forall i :: 0 <= i < |keys| ==> keys[i] !in offsets
    ensures forall i :: 0 <= i < |keys| ==> Positions(offsets, keys, sizes, start)[i] == start + Total(sizes[..i])
    decreases |keys|
  {
    if keys != [] {
      var rest := Positions(offsets, keys[1..], sizes[1..], start + sizes[0]);
      ImplicitLayoutContiguous(offsets, keys[1..], sizes[1..], start + sizes[0]);
      forall i | 0 <= i < |keys|
        ensures Positions(offsets, keys, sizes, start)[i] == start + Total(sizes[..i])
      {
        if i > 0 {
          assert Positions(offsets, keys, sizes, start)[i] == rest[i - 1];
          assert sizes[..i] == [sizes[0]] + sizes[1..][..i - 1];
          assert sizes[..i][1..] == sizes[1..][..i - 1];
        } else {
          assert sizes[..0] == [];
        }
      }
    }
  }

  /** With non-negative sizes the ranges of implicit calls do not overlap: a
      later call starts after every earlier range ends. */
  lemma ImplicitLayoutDisjoint(offsets: map<string, int>, keys: seq<string>, sizes: seq<int>, start: int, i: int, j: int)
    requires |keys| == |sizes|
    requires forall k :: 0 <= k < |keys| ==> keys[k] !in offsets
    requires forall k :: 0 <= k < |sizes| ==> sizes[k] >= 0
    requires 0 <= i < j < |keys|
    ensures var p := Positions(offsets, keys, sizes, start);
      p[i] + sizes[i] <= p[j]
  {
    ImplicitLayoutContiguous(offsets, keys, sizes, start);
    TotalGrows(sizes, i, j);
  }

  lemma {:induction false} TotalGrows(sizes: seq<int>, i: int, j: int)
    requires forall k :: 0 <= k < |sizes| ==> sizes[k] >= 0
    requires 0 <= i < j <= |sizes|
    ensures Total(sizes[..i]) + sizes[i] <= Total(sizes[..j])
    decreases j - i
  {
    assert sizes[..i + 1] == sizes[..i] + [sizes[i]];
    TotalAppend(sizes[..i], sizes[i]);
    if j > i + 1 {
      assert sizes[..j] == sizes[..j - 1] + [sizes[j - 1]];
      TotalAppend(sizes[..j - 1], sizes[j - 1]);
      TotalGrows(sizes, i, j - 1);
    }
  }

  /** A loader that reads all parameters from one file, either at explicit
      offsets or at a running counter. */
  class SingleBinaryLoader {
    var checkpoint: string
    var file: Option<LoadedFile>
    var currentOffset: int
    var offsets: map<string, int>
    /** How the key for a pair (id, modifier) is built. */
    var offsetString: (string, string) -> string

    /** `init(checkpoint:)`: no file, counter 0, no offsets, keys `id + modifier`. */
    constructor(checkpoint: string)
      ensures this.checkpoint == checkpoint && file == None && currentOffset == 0 && offsets == map[]
      ensures forall id, modifier :: offsetString(id, modifier) == id + modifier
    {
      this.checkpoint := checkpoint;
      file := None;
      currentOffset := 0;
      offsets := map[];
      offsetString := (id: string, modifier: string) => id + modifier;
    }

    /** `loadFile(count:)`: maps the checkpoint file into memory. */
    method LoadFile(count: int)
      modifies this
      ensures file == Some(LoadedFile(checkpoint, count))
      ensures checkpoint == old(checkpoint) && currentOffset == old(currentOffset)
      ensures offsets == old(offsets) && offsetString == old(offsetString)
    {
      file := Some(LoadedFile(checkpoint, count));
    }

    /** `loadWeights(for:modifier:size:)`: the file must be loaded (the source
        force-unwraps it). */
    method LoadWeights(id: string, modifier: string, size: int) returns (p: WeightPointer)
      requires file.Some?
      modifies this
      ensures var (offset, next) := Place(offsets, offsetString(id, modifier), old(currentOffset), size);
        p == WeightPointer(old(file).value, offset) && currentOffset == next
      ensures file == old(file) && checkpoint == old(checkpoint)
      ensures offsets == old(offsets) && offsetString == old(offsetString)
    {
      var key := offsetString(id, modifier);
      if key in offsets {
        p := WeightPointer(file.value, offsets[key]);
      } else {
        p := WeightPointer(file.value, currentOffset);
        currentOffset := currentOffset + size;
      }
    }

    /** `reset`: counter back to 0 and the file released. */
    method Reset()
      modifies this
      ensures currentOffset == 0 && file == None
      ensures checkpoint == old(checkpoint) && offsets == old(offsets) && offsetString == old(offsetString)
    {
      currentOffset := 0;
      file := None;
    }
  }

  /** A file read request: a path and a float count. */
  datatype FileRead = FileRead(path: string, size: int)

  /** The file name of one parameter: checkpoint, per-layer name, suffix. */
  function PerLayerFileName(checkpoint: string, layerName: string, suffix: string): (name: string)
    ensures |name| == |checkpoint| + |layerName| + |suffix|
    ensures StartsWith(name, checkpoint) && EndsWith(name, suffix)
    ensures name[|checkpoint|..|name| - |suffix|] == layerName
  {
    StartsWithConcat(checkpoint, layerName + suffix);
    EndsWithConcat(checkpoint + layerName, suffix);
    assert checkpoint + layerName + suffix == checkpoint + (layerName + suffix);
    checkpoint + layerName + suffix
  }

  /** With a fixed checkpoint and suffix, different per-layer names give
      different files. */
  lemma PerLayerFileNameInjective(checkpoint: string, a: string, b: string, suffix: string)
    requires PerLayerFileName(checkpoint, a, suffix) == PerLayerFileName(checkpoint, b, suffix)
    ensures a == b
  {
    var n := PerLayerFileName(checkpoint, a, suffix);
    assert a == n[|checkpoint|..|n| - |suffix|];
  }

  /** A loader that reads each parameter from its own file. */
  class PerLayerBinaryLoader {
    var filenameForLayer: (string, string) -> string
    var checkpoint: string
    var suffix: string

    /** `init(checkpoint:)`: names `id + modifier`, empty suffix. */
    constructor(checkpoint: string := "")
      ensures this.checkpoint == checkpoint && suffix == ""
      ensures forall id, modifier :: filenameForLayer(id, modifier) == id + modifier
    {
      this.checkpoint := checkpoint;
      suffix := "";
      filenameForLayer := (id: string, modifier: string) => id + modifier;
    }

    /** `loadWeights(for:modifier:size:)`: reads `size` floats from the layer's
        file. */
    method LoadWeights(id: string, modifier: string, size: int) returns (r: FileRead)
      ensures r == FileRead(PerLayerFileName(checkpoint, filenameForLayer(id, modifier), suffix), size)
    {
      var filename := checkpoint + filenameForLayer(id, modifier) + suffix;
      r := FileRead(filename, size);
    }
  }

  /** With the default naming and no checkpoint or suffix, the file of a
      parameter is `id + modifier`. */
  lemma DefaultFileName(id: string, modifier: string)
    ensures PerLayerFileName("", id + modifier, "") == id + modifier
  {
  }
}
