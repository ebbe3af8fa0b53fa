/**
 * The decision `handleFiles` (viewer.js) makes about a dropped or picked
 * file list: which loading path runs and how it ends.
 *
 * The Niivue engine and the browser's image decoder are outside the model;
 * what they would do with the file enters as two booleans.
 */
module Dispatch {

  /** A file as the viewer sees it: its name and its MIME type. */
  datatype File = File(name: string, mimeType: string)

  datatype Outcome =
    | NoFile         // the list was empty: nothing happens
    | NoContext      // no 2D context: drawing the loading screen throws before any load
    | VolumeLoaded   // Niivue's loadVolumes accepted the file
    | RasterLoaded   // no Niivue: the file was decoded and became the current image
    | RasterFailed   // no Niivue: reading or decoding the image failed
    | Unsupported    // no Niivue and not an image type: "Unsupported file format"
    | Aborted        // Niivue rejected the file and the error handler itself threw

  const RasterPrefix: string := "image/"

  /** JavaScript's `String.prototype.startsWith`. */
  predicate StartsWith(s: string, prefix: string) {
    |prefix| <= |s| && s[..|prefix|] == prefix
  }

  predicate IsRasterType(mimeType: string) {
    StartsWith(mimeType, RasterPrefix)
  }

  /**
   * Only `files[0]` is looked at. `hasContext` says whether the canvas's
   * 2D context `ctx` exists: it is created only when Niivue failed to
   * initialise, and without it the loading screen drawn before any load
   * throws a TypeError. `hasNiivue` says whether `nv` is non-null; together
   * with a context that is the case where Niivue's constructor succeeded
   * and `attachTo` threw. With Niivue the file is always offered to
   * `loadVolumes` first. On failure the `catch` block refers to `fileUrl`,
   * a `const` local to the `try` block, so it throws a ReferenceError and
   * the raster fallback is never reached. Without Niivue, an `image/` type
   * is decoded and anything else is refused.
   */
  function Decide(files: seq<File>, hasContext: bool, hasNiivue: bool, volumeLoads: bool, decodes: bool): (o: Outcome)
    ensures o == NoFile <==> files == []
    ensures o == NoContext <==> files != [] && !hasContext
    ensures o == VolumeLoaded <==> files != [] && hasContext && hasNiivue && volumeLoads
    ensures o == Aborted <==> files != [] && hasContext && hasNiivue && !volumeLoads
    ensures o == RasterLoaded <==> files != [] && hasContext && !hasNiivue && IsRasterType(files[0].mimeType) && decodes
    ensures o == RasterFailed <==> files != [] && hasContext && !hasNiivue && IsRasterType(files[0].mimeType) && !decodes
    ensures o == Unsupported <==> files != [] && hasContext && !hasNiivue && !IsRasterType(files[0].mimeType)
  {
    if files == [] then NoFile
    else if !hasContext then NoContext
    else if hasNiivue then
      if volumeLoads then VolumeLoaded else Aborted
    else if IsRasterType(files[0].mimeType) then
      if decodes then RasterLoaded else RasterFailed
    else Unsupported
  }

  /** Files after the first are ignored. */
  lemma DecideLooksAtFirstFileOnly(files: seq<File>, rest: seq<File>, hasContext: bool, hasNiivue: bool, volumeLoads: bool, decodes: bool)
    requires files != []
    ensures Decide(files, hasContext, hasNiivue, volumeLoads, decodes) == Decide([files[0]] + rest, hasContext, hasNiivue, volumeLoads, decodes)
  {
  }

  /**
   * With a fully attached Niivue there is no 2D context, so no file is ever
   * loaded: neither the volume loader nor the decoder can change that.
   */
  lemma AttachedNiivueLoadsNothing(files: seq<File>, volumeLoads: bool, decodes: bool)
    requires files != []
    ensures Decide(files, false, true, volumeLoads, decodes) == NoContext
  {
  }

  /** With a Niivue instance the raster path is never reached, whatever the file's type or decodability. */
  lemma NiivueNeverFallsBackToRaster(files: seq<File>, hasContext: bool, volumeLoads: bool, decodes: bool)
    requires files != []
    ensures var o := Decide(files, hasContext, true, volumeLoads, decodes);
      (o == VolumeLoaded || o == Aborted || o == NoContext) && o == Decide(files, hasContext, true, volumeLoads, !decodes)
  {
  }

  /** Without Niivue no volume load is attempted: the volume outcome cannot matter. */
  lemma NoNiivueNoVolumeLoad(files: seq<File>, hasContext: bool, volumeLoads: bool, decodes: bool)
    ensures Decide(files, hasContext, false, volumeLoads, decodes) == Decide(files, hasContext, false, !volumeLoads, decodes)
    ensures Decide(files, hasContext, false, volumeLoads, decodes) != VolumeLoaded
  {
  }

  /** A file of type `image/jpeg` is decoded when there is no Niivue; `text/plain` is refused. */
  lemma RasterTypeExamples()
    ensures IsRasterType("image/jpeg") && IsRasterType("image/png")
    ensures !IsRasterType("text/plain") && !IsRasterType("") && !IsRasterType("image")
    ensures Decide([File("cells.jpg", "image/jpeg")], true, false, false, true) == RasterLoaded
    ensures Decide([File("notes.txt", "text/plain")], true, false, false, true) == Unsupported
    ensures Decide([File("scan.nii.gz", "")], true, true, false, true) == Aborted
  {
    assert "image/jpeg"[..6] == RasterPrefix;
    assert "image/png"[..6] == RasterPrefix;
    assert "text/plain"[..6] != RasterPrefix by { assert "text/plain"[0] != RasterPrefix[0]; }
  }
}
