/**
 * The `'@'` suffix of the model path in `load_coco_ssd_model`:
 * `i_model_path, *device = i_model_path.split('@')` keeps the first piece as
 * the model file, and the second piece, when there is one, becomes the Edge
 * TPU delegate option `{'device': ...}`.
 */
module ModelPath {
  import opened Strings

  /** Python's `s.split(sep)` with an explicit one-character separator. */
  function Split(s: string, sep: char): (pieces: seq<string>)
    ensures |pieces| >= 1
    decreases |s|
  {
    var k := IndexOf(s, sep);
    if k == |s| then [s] else [s[..k]] + Split(s[k + 1..], sep)
  }

  /** Joining the pieces gives back the text. */
  lemma {:induction false} SplitRejoins(s: string, sep: char)
    ensures Join(Split(s, sep), sep) == s
    decreases |s|
  {
    var k := IndexOf(s, sep);
    if k < |s| {
      var pieces := Split(s, sep);
      var rest := Split(s[k + 1..], sep);
      assert pieces == [s[..k]] + rest;
      assert |pieces| > 1 && pieces[0] == s[..k] && pieces[1..] == rest;
      SplitRejoins(s[k + 1..], sep);
      assert Join(pieces, sep) == s[..k] + [sep] + Join(rest, sep);
      assert s == s[..k] + [sep] + s[k + 1..];
    }
  }

  /** No piece holds the separator. */
  lemma {:induction false} SplitPiecesFree(s: string, sep: char)
    ensures forall i :: 0 <= i < |Split(s, sep)| ==> sep !in Split(s, sep)[i]
    decreases |s|
  {
    var k := IndexOf(s, sep);
    if k < |s| {
      var pieces := Split(s, sep);
      var rest := Split(s[k + 1..], sep);
      SplitPiecesFree(s[k + 1..], sep);
      assert forall i :: 1 <= i < |pieces| ==> pieces[i] == rest[i - 1];
    }
  }

  /** There is more than one piece exactly when the text holds the separator. */
  lemma SplitSingle(s: string, sep: char)
    ensures |Split(s, sep)| == 1 <==> sep !in s
  {
    var k := IndexOf(s, sep);
    if k < |s| {
      assert s[k] == sep;
    }
  }

  /** `sep.join(pieces)`. */
  function Join(pieces: seq<string>, sep: char): string
    requires |pieces| >= 1
  {
    if |pieces| == 1 then pieces[0] else pieces[0] + [sep] + Join(pieces[1..], sep)
  }

  /** Split undoes Join whenever no piece contains the separator. */
  lemma {:induction false} SplitJoin(pieces: seq<string>, sep: char)
    requires |pieces| >= 1
    requires forall i :: 0 <= i < |pieces| ==> sep !in pieces[i]
    ensures Split(Join(pieces, sep), sep) == pieces
  {
    var s := Join(pieces, sep);
    if |pieces| == 1 {
      assert IndexOf(s, sep) == |s|;
    } else {
      var first := pieces[0];
      var rest := Join(pieces[1..], sep);
      assert s == first + [sep] + rest;
      IndexOfAfterFree(first, rest, sep);
      assert s[|first| + 1..] == rest;
      assert s[..|first|] == first;
      SplitJoin(pieces[1..], sep);
    }
  }

  /** The first separator of `x + [sep] + y` is the one after `x` when `x` has none. */
  lemma {:induction false} IndexOfAfterFree(x: string, y: string, sep: char)
    requires sep !in x
    ensures IndexOf(x + [sep] + y, sep) == |x|
    decreases |x|
  {
    if x != [] {
      assert (x + [sep] + y)[1..] == x[1..] + [sep] + y;
      IndexOfAfterFree(x[1..], y, sep);
    }
  }

  /** The model file and the delegate options that a model path selects. */
  datatype ModelLocation = ModelLocation(file: string, options: map<string, string>)

  const DeviceKey := "device"

  function Locate(path: string): ModelLocation {
    var pieces := Split(path, '@');
    ModelLocation(pieces[0], if |pieces| > 1 then map[DeviceKey := pieces[1]] else map[])
  }

  /** The file is everything before the first `'@'`; the device option is the
      text between the first and the second `'@'` (or the end); without `'@'`
      the file is the whole path and there are no options. */
  lemma LocateSpec(path: string)
    ensures var loc := Locate(path);
      && |loc.file| <= |path| && loc.file == path[..|loc.file|] && '@' !in loc.file
      && (|loc.file| < |path| ==> path[|loc.file|] == '@')
      && ('@' !in path ==> loc.file == path && loc.options == map[])
      && ('@' in path ==>
            var rest := path[|loc.file| + 1..];
            loc.options == map[DeviceKey := rest[..IndexOf(rest, '@')]])
  {
    var pieces := Split(path, '@');
    var k := IndexOf(path, '@');
    if k < |path| {
      var rest := path[k + 1..];
      var tail := Split(rest, '@');
      assert pieces == [path[..k]] + tail;
      var j := IndexOf(rest, '@');
      if j < |rest| {
        assert tail[0] == rest[..j];
      } else {
        assert tail == [rest];
        assert rest[..j] == rest;
      }
    }
  }

  /** A file name and a device name joined by `'@'` are taken apart again;
      an empty device name still yields a device option. */
  lemma LocateFileAtDevice(file: string, device: string)
    requires '@' !in file && '@' !in device
    ensures Locate(file + "@" + device) == ModelLocation(file, map[DeviceKey := device])
  {
    assert Join([file, device], '@') == file + "@" + device;
    SplitJoin([file, device], '@');
  }

  /** A path without `'@'` is the file itself, with the default device. */
  lemma LocatePlainFile(file: string)
    requires '@' !in file
    ensures Locate(file) == ModelLocation(file, map[])
  {
    SplitJoin([file], '@');
  }
}
