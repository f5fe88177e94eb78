/** The screenshot normaliser: threshold the alpha channel, crop to the
    content bounding box, stretch to the iPad Pro 12.9" resolution and
    name the output after the input. Decoding, resampling and encoding
    are abstract: a decoded image is its alpha channel as a 2-D array
    (rows first), and whether opening or saving a file succeeds is a
    parameter. */
module Screenshots {
  import opened Wrappers
  import Strings

  const TargetWidth: int := 2048
  const TargetHeight: int := 2732
  const Threshold: int := 50
  const OutputDir: string := "/Users/tongxu/Projects/pro-gemini5/voiceagent-rn/screenshots_processed_ipad"

  /** The binary mask: 255 for an alpha strictly above the threshold. */
  function Mask(alpha: int): (m: int)
    ensures m == 255 <==> alpha > Threshold
    ensures m == 0 <==> alpha <= Threshold
  {
    if alpha > Threshold then 255 else 0
  }

  /** A pixel that the mask keeps (non-zero in the thresholded image). */
  ghost predicate Content(a: array2<int>, y: int, x: int)
    reads a
    requires 0 <= y < a.Length0 && 0 <= x < a.Length1
  {
    Mask(a[y, x]) != 0
  }

  /** Pillow's box convention: left and top inclusive, right and bottom exclusive. */
  datatype Box = Box(left: int, top: int, right: int, bottom: int)
  {
    function Width(): int { right - left }
    function Height(): int { bottom - top }
    /** The last column and the last row inside the box. */
    function LastColumn(): int { right - 1 }
    function LastRow(): int { bottom - 1 }
  }

  ghost predicate NoContent(a: array2<int>)
    reads a
  {
    forall y, x :: 0 <= y < a.Length0 && 0 <= x < a.Length1 ==> !Content(a, y, x)
  }

  /** `b` is the bounding box of the content: it lies in the image, holds
      every content pixel, and each of its four edges touches one. */
  ghost predicate IsBBox(a: array2<int>, b: Box)
    reads a
  {
    && 0 <= b.left < b.right <= a.Length1
    && 0 <= b.top < b.bottom <= a.Length0
    && (forall y, x :: 0 <= y < a.Length0 && 0 <= x < a.Length1 && Content(a, y, x) ==>
          b.left <= x < b.right && b.top <= y < b.bottom)
    && (exists y :: 0 <= y < a.Length0 && Content(a, y, b.left))
    && (exists y :: 0 <= y < a.Length0 && Content(a, y, b.LastColumn()))
    && (exists x :: 0 <= x < a.Length1 && Content(a, b.top, x))
    && (exists x :: 0 <= x < a.Length1 && Content(a, b.LastRow(), x))
  }

  /** The bounding box is the smallest box holding the content, hence unique. */
  lemma BBoxUnique(a: array2<int>, b1: Box, b2: Box)
    requires IsBBox(a, b1) && IsBBox(a, b2)
    ensures b1 == b2
  {
    var yl :| 0 <= yl < a.Length0 && Content(a, yl, b1.left);
    var yr :| 0 <= yr < a.Length0 && Content(a, yr, b1.LastColumn());
    var xt :| 0 <= xt < a.Length1 && Content(a, b1.top, xt);
    var xb :| 0 <= xb < a.Length1 && Content(a, b1.LastRow(), xb);
    var yl2 :| 0 <= yl2 < a.Length0 && Content(a, yl2, b2.left);
    var yr2 :| 0 <= yr2 < a.Length0 && Content(a, yr2, b2.LastColumn());
    var xt2 :| 0 <= xt2 < a.Length1 && Content(a, b2.top, xt2);
    var xb2 :| 0 <= xb2 < a.Length1 && Content(a, b2.LastRow(), xb2);
  }

  /** Pixels already visited by a row-major scan stopped at (y, x). */
  predicate Scanned(y: int, x: int, i: int, j: int)
  {
    i < y || (i == y && j < x)
  }

  /** `getbbox()` of the thresholded alpha: None when every alpha is at
      most the threshold, otherwise the bounding box of the content. */
  method ComputeBBox(a: array2<int>) returns (bbox: Option<Box>)
    ensures bbox.None? <==> NoContent(a)
    ensures bbox.Some? ==> IsBBox(a, bbox.value)
  {
    var found := false;
    var left, top, right, bottom := 0, 0, 0, 0;
    ghost var yl, yr, xt, xb := 0, 0, 0, 0;
    var y := 0;
    while y < a.Length0
      invariant 0 <= y <= a.Length0
      invariant !found ==> forall i, j :: 0 <= i < y && 0 <= j < a.Length1 ==> !Content(a, i, j)
      invariant found ==> 0 <= left < right <= a.Length1 && 0 <= top < bottom <= y
      invariant found ==> forall i, j :: 0 <= i < y && 0 <= j < a.Length1 && Content(a, i, j) ==>
                  left <= j < right && top <= i < bottom
      invariant found ==> 0 <= yl < a.Length0 && Content(a, yl, left)
      invariant found ==> 0 <= yr < a.Length0 && Content(a, yr, right - 1)
      invariant found ==> 0 <= xt < a.Length1 && Content(a, top, xt)
      invariant found ==> 0 <= xb < a.Length1 && Content(a, bottom - 1, xb)
    {
      var x := 0;
      while x < a.Length1
        invariant 0 <= x <= a.Length1
        invariant !found ==> forall i, j :: 0 <= i < a.Length0 && 0 <= j < a.Length1 && Scanned(y, x, i, j) ==> !Content(a, i, j)
        invariant found ==> 0 <= left < right <= a.Length1 && 0 <= top < bottom <= y + 1
        invariant found ==> forall i, j :: 0 <= i < a.Length0 && 0 <= j < a.Length1 && Scanned(y, x, i, j) && Content(a, i, j) ==>
                    left <= j < right && top <= i < bottom
        invariant found ==> 0 <= yl < a.Length0 && Content(a, yl, left)
        invariant found ==> 0 <= yr < a.Length0 && Content(a, yr, right - 1)
        invariant found ==> 0 <= xt < a.Length1 && Content(a, top, xt)
        invariant found ==> 0 <= xb < a.Length1 && Content(a, bottom - 1, xb)
      {
        if Mask(a[y, x]) != 0 {
          if !found {
            found := true;
            left, top, right, bottom := x, y, x + 1, y + 1;
            yl, yr, xt, xb := y, y, x, x;
          } else {
            if x < left { left := x; yl := y; }
            if x + 1 > right { right := x + 1; yr := y; }
            if y + 1 > bottom { bottom := y + 1; xb := x; }
          }
        }
        x := x + 1;
      }
      assert forall i, j :: 0 <= i < a.Length0 && 0 <= j < a.Length1 && i < y + 1 ==> Scanned(y, x, i, j);
      y := y + 1;
    }
    if found {
      var b := Box(left, top, right, bottom);
      assert Content(a, yl, b.left) && Content(a, yr, b.LastColumn());
      assert Content(a, b.top, xt) && Content(a, b.LastRow(), xb);
      assert IsBBox(a, b);
      bbox := Some(b);
    } else {
      assert NoContent(a);
      bbox := None;
    }
  }

  /** `os.path.basename`: everything after the last '/'. */
  function Basename(path: string): (name: string)
    ensures '/' !in name
    ensures |name| <= |path| && name == path[|path| - |name|..]
    ensures name == path || path[|path| - |name| - 1] == '/'
  {
    if path == [] then []
    else if path[|path| - 1] == '/' then []
    else
      var init := path[..|path| - 1];
      var name := Basename(init) + [path[|path| - 1]];
      assert path == init + [path[|path| - 1]];
      assert path[|path| - |name|..] == init[|init| - (|name| - 1)..] + [path[|path| - 1]];
      name
  }

  /** The last '.' of a name, if any. */
  function LastDot(name: string): (r: Option<nat>)
    ensures r.None? <==> '.' !in name
    ensures r.Some? ==> r.value < |name| && name[r.value] == '.' && '.' !in name[r.value + 1..]
  {
    if name == [] then None
    else if name[|name| - 1] == '.' then Some(|name| - 1)
    else
      var r := LastDot(name[..|name| - 1]);
      assert name[..|name| - 1] + [name[|name| - 1]] == name;
      if r.Some? then
        assert name[r.value + 1..] == name[..|name| - 1][r.value + 1..] + [name[|name| - 1]];
        r
      else r
  }

  /** `os.path.splitext(name)[0]` for a name without '/': the part before
      the last '.', unless only dots precede that '.' (a leading-dot name
      such as ".png" has no extension). */
  function Stem(name: string): (stem: string)
    ensures stem <= name
  {
    match LastDot(name)
    case None => name
    case Some(d) =>
      if exists k :: 0 <= k < d && name[k] != '.' then name[..d] else name
  }

  /** `os.path.join(OUTPUT_DIR, f"iPad_Clean_{index+1}_{name}.png")`. */
  function OutputPath(filepath: string, index: nat): (path: string)
    ensures OutputDir + "/iPad_Clean_" <= path
  {
    OutputDir + "/" + "iPad_Clean_" + Strings.IntToString(index + 1) + "_" + Stem(Basename(filepath)) + ".png"
  }

  lemma {:induction false} LastDotBeforeExtension(name: string, ext: string)
    requires '.' !in ext
    ensures LastDot(name + "." + ext) == Some(|name|)
  {
    var full := name + "." + ext;
    if ext != [] {
      var init := ext[..|ext| - 1];
      assert ext[|ext| - 1] in ext;
      assert full[..|full| - 1] == name + "." + init;
      LastDotBeforeExtension(name, init);
    }
  }

  /** The extension-stripping is exact: a name with some character other
      than '.' gets back exactly that name, whatever (dot-free) extension
      followed it. */
  lemma StemDropsExtension(name: string, ext: string)
    requires '.' !in ext
    requires exists k :: 0 <= k < |name| && name[k] != '.'
    ensures Stem(name + "." + ext) == name
  {
    var full := name + "." + ext;
    LastDotBeforeExtension(name, ext);
    var k :| 0 <= k < |name| && name[k] != '.';
    assert full[k] != '.';
    assert full[..|name|] == name;
  }

  /** A name that is only dots (or empty) has no extension to strip. */
  lemma StemOfDotsOnly(name: string)
    requires forall k :: 0 <= k < |name| ==> name[k] == '.'
    ensures Stem(name) == name
  {
  }

  lemma {:induction false} BasenameOfJoin(dir: string, file: string)
    requires '/' !in file
    ensures Basename(dir + "/" + file) == file
  {
    var p := dir + "/" + file;
    if file != [] {
      var init := file[..|file| - 1];
      assert p[..|p| - 1] == dir + "/" + init;
      assert file[|file| - 1] in file;
      BasenameOfJoin(dir, init);
      assert file == init + [file[|file| - 1]];
    }
  }

  /** The full output name: for an input `dir/name.ext` (a name that is
      not all dots, an extension without dots) the file written is
      `iPad_Clean_<index + 1>_<name>.png` in the output directory. */
  lemma OutputPathOfInput(dir: string, name: string, ext: string, index: nat)
    requires '/' !in name && '/' !in ext && '.' !in ext
    requires exists k :: 0 <= k < |name| && name[k] != '.'
    ensures OutputPath(dir + "/" + name + "." + ext, index)
         == OutputDir + "/" + "iPad_Clean_" + Strings.IntToString(index + 1) + "_" + name + ".png"
  {
    var file := name + "." + ext;
    NoSlashInFileName(name, ext);
    assert dir + "/" + name + "." + ext == dir + "/" + file;
    BasenameOfJoin(dir, file);
    StemDropsExtension(name, ext);
  }

  lemma NoSlashInFileName(name: string, ext: string)
    requires '/' !in name && '/' !in ext
    ensures '/' !in name + "." + ext
  {
    var file := name + "." + ext;
    forall i | 0 <= i < |file|
      ensures file[i] != '/'
    {
      if i < |name| {
        assert file[i] == name[i];
      } else if i > |name| {
        assert file[i] == ext[i - |name| - 1];
      }
    }
  }

  /** What `img.save` writes for one input. */
  datatype Saved = Saved(path: string, region: Box, width: int, height: int)

  /** `process_image(filepath, index)`. `decoded` is the alpha channel of the
      opened RGBA image, or None when opening or converting throws;
      `saveOk` says whether saving succeeds. Any failure gives None and
      writes nothing. */
  method ProcessImage(filepath: string, index: nat, decoded: Option<array2<int>>, saveOk: bool)
    returns (result: Option<string>, written: Option<Saved>)
    requires decoded.Some? ==> decoded.value.Length0 > 0 && decoded.value.Length1 > 0
    ensures result.Some? <==> decoded.Some? && saveOk
    ensures result.Some? ==> result.value == OutputPath(filepath, index)
    ensures written.Some? <==> result.Some?
    ensures written.Some? ==> written.value.path == OutputPath(filepath, index)
    ensures written.Some? ==> written.value.width == TargetWidth && written.value.height == TargetHeight
    ensures written.Some? && NoContent(decoded.value) ==>
              written.value.region == Box(0, 0, decoded.value.Length1, decoded.value.Length0)
    ensures written.Some? && !NoContent(decoded.value) ==> IsBBox(decoded.value, written.value.region)
  {
    if decoded.None? {
      return None, None;
    }
    var a := decoded.value;
    var bbox := ComputeBBox(a);
    var region := Box(0, 0, a.Length1, a.Length0);
    if bbox.Some? {
      region := bbox.value;
    }
    // Resizing stretches whatever region was kept to the fixed target size.
    var width, height := TargetWidth, TargetHeight;
    var outputPath := OutputPath(filepath, index);
    if !saveOk {
      return None, None;
    }
    return Some(outputPath), Some(Saved(outputPath, region, width, height));
  }

  /** The output path of every input, by position. */
  function OutputPaths(inputs: seq<string>): (paths: seq<string>)
    ensures |paths| == |inputs|
    ensures forall i :: 0 <= i < |inputs| ==> paths[i] == OutputPath(inputs[i], i)
  {
    seq(|inputs|, i requires 0 <= i < |inputs| => OutputPath(inputs[i], i))
  }

  /** The first `n` elements of `xs` whose flag is set, in their
      original order. */
  function Kept<T>(xs: seq<T>, keep: seq<bool>, n: nat): (r: seq<T>)
    requires n <= |xs| && |keep| == |xs|
    ensures |r| <= n
  {
    if n == 0 then [] else Kept(xs, keep, n - 1) + (if keep[n - 1] then [xs[n - 1]] else [])
  }

  /** When every file succeeds, `main` reports every output path in order. */
  lemma {:induction false} KeptAll<T>(xs: seq<T>, keep: seq<bool>, n: nat)
    requires n <= |xs| && |keep| == |xs|
    requires forall i :: 0 <= i < n ==> keep[i]
    ensures Kept(xs, keep, n) == xs[..n]
  {
    if n > 0 {
      KeptAll(xs, keep, n - 1);
      assert xs[..n] == xs[..n - 1] + [xs[n - 1]];
    }
  }

  /** A failed file contributes nothing: `main` reports exactly the paths of
      the files that succeeded. */
  lemma {:induction false} KeptMembers<T>(xs: seq<T>, keep: seq<bool>, n: nat, x: T)
    requires n <= |xs| && |keep| == |xs|
    ensures x in Kept(xs, keep, n) <==> exists i :: 0 <= i < n && keep[i] && xs[i] == x
  {
    if n > 0 {
      KeptMembers(xs, keep, n - 1, x);
    }
  }

  /** Which inputs are processed successfully: opened and saved. */
  function Succeeded(decoded: seq<Option<array2<int>>>, saveOk: seq<bool>): (ok: seq<bool>)
    requires |saveOk| == |decoded|
    ensures |ok| == |decoded|
    ensures forall i :: 0 <= i < |decoded| ==> ok[i] == (decoded[i].Some? && saveOk[i])
  {
    seq(|decoded|, i requires 0 <= i < |decoded| => decoded[i].Some? && saveOk[i])
  }

  /** One pass of `main`'s loop: process the file and append its output
      path when it succeeded. */
  method ProcessAndCollect(filepath: string, index: nat, decoded: Option<array2<int>>, saveOk: bool, generated: seq<string>)
    returns (generated': seq<string>)
    requires decoded.Some? ==> decoded.value.Length0 > 0 && decoded.value.Length1 > 0
    ensures generated' == generated + if decoded.Some? && saveOk then [OutputPath(filepath, index)] else []
  {
    var path, _ := ProcessImage(filepath, index, decoded, saveOk);
    generated' := generated;
    if path.Some? {
      generated' := generated' + [path.value];
    }
  }

  /** `main()`: the output directory is created before the loop only when
      missing, and every input is processed whatever happened to the
      previous ones; the successful paths are collected in input order. */
  method Run(dirExists: bool, inputs: seq<string>, decoded: seq<Option<array2<int>>>, saveOk: seq<bool>)
    returns (createdDir: bool, generated: seq<string>)
    requires |decoded| == |inputs| && |saveOk| == |inputs|
    requires forall i :: 0 <= i < |decoded| && decoded[i].Some? ==> decoded[i].value.Length0 > 0 && decoded[i].value.Length1 > 0
    ensures createdDir == !dirExists
    ensures generated == Kept(OutputPaths(inputs), Succeeded(decoded, saveOk), |inputs|)
  {
    createdDir := !dirExists;
    ghost var ok := Succeeded(decoded, saveOk);
    ghost var all := OutputPaths(inputs);
    generated := [];
    var i := 0;
    while i < |inputs|
      invariant 0 <= i <= |inputs|
      invariant generated == Kept(all, ok, i)
    {
      generated := ProcessAndCollect(inputs[i], i, decoded[i], saveOk[i], generated);
      i := i + 1;
    }
  }
}
