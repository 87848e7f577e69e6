/** The crop screen's presenter: it holds the source picture and the
    artifacts derived from it, and guards the crop, enhance and save
    actions. Crop and enhance hand their pixel work to a background task
    and update the presenter only when the result is delivered; each is
    therefore split into a request (the guard and the task it dispatches)
    and a delivery (the callback's field updates). */
module Crop {
  import opened Imaging
  import opened FileNames

  /** The work a crop request dispatches: rectify this picture by this quad. */
  datatype CropTask = CropTask(source: Mat, quad: Corners)

  /** The work an enhance request dispatches: enhance this cropped bitmap. */
  datatype EnhanceTask = EnhanceTask(base: Bitmap)

  /** The presenter's state, field for field. */
  datatype Fields = Fields(
    picture: Option<Mat>,
    croppedPicture: Option<Mat>,
    croppedBitmap: Option<Bitmap>,
    enhancedPicture: Option<Bitmap>)

  /** A file the save action writes: directory, file name and image. */
  datatype SavedFile = SavedFile(dir: string, name: string, image: Bitmap)

  function InitialFields(picture: Option<Mat>): Fields
  {
    Fields(picture, None, None, None)
  }

  /** The crop guard: no picture, or a crop already delivered, dispatches nothing. */
  function RequestCrop(f: Fields, quad: Corners): Option<CropTask>
  {
    if f.picture.None? then None
    else if f.croppedBitmap.Some? then None
    else Some(CropTask(f.picture.value, quad))
  }

  /** What a crop task computes on its worker. */
  function RunCrop(env: Collaborators, t: CropTask): Mat
  {
    env.cropPicture(t.source, t.quad)
  }

  /** The crop callback: store the matrix and the bitmap made from it. */
  function DeliverCrop(env: Collaborators, f: Fields, pc: Mat): Fields
  {
    f.(croppedPicture := Some(pc), croppedBitmap := Some(ToBitmap(env, pc)))
  }

  /** The enhance guard: without a cropped bitmap nothing is dispatched;
      otherwise the task always starts from the cropped bitmap. */
  function RequestEnhance(f: Fields): Option<EnhanceTask>
  {
    if f.croppedBitmap.None? then None else Some(EnhanceTask(f.croppedBitmap.value))
  }

  /** What an enhance task computes on its worker. */
  function RunEnhance(env: Collaborators, t: EnhanceTask): Bitmap
  {
    env.enhancePicture(t.base)
  }

  /** The enhance callback: the result replaces any earlier enhanced image. */
  function DeliverEnhance(f: Fields, pc: Bitmap): Fields
  {
    f.(enhancedPicture := Some(pc))
  }

  /** The save choice: nothing without write permission; otherwise the
      enhanced image if there is one, else the cropped bitmap, else nothing. */
  function SaveSelection(f: Fields, hasPermission: bool, millis: nat): Option<SavedFile>
  {
    if !hasPermission then None
    else if f.enhancedPicture.Some? then
      Some(SavedFile(ImagesDir, SaveName(EnhancePrefix, millis), f.enhancedPicture.value))
    else if f.croppedBitmap.Some? then
      Some(SavedFile(ImagesDir, SaveName(CropPrefix, millis), f.croppedBitmap.value))
    else None
  }

  /** The cropped matrix and the cropped bitmap are stored together, the
      bitmap being made from the matrix. */
  predicate CropCoherent(env: Collaborators, f: Fields)
  {
    (f.croppedPicture.Some? <==> f.croppedBitmap.Some?) &&
    (f.croppedPicture.Some? ==> f.croppedBitmap.value == ToBitmap(env, f.croppedPicture.value))
  }

  class CropPresenter {
    const env: Collaborators
    const picture: Option<Mat>
    /** The detected quadrilateral; it only seeds the corner editor. */
    const corners: Option<Corners>
    var croppedPicture: Option<Mat>
    var enhancedPicture: Option<Bitmap>
    var croppedBitmap: Option<Bitmap>

    function Snapshot(): Fields
      reads this
    {
      Fields(picture, croppedPicture, croppedBitmap, enhancedPicture)
    }

    /** The cropped pair is coherent, and an enhanced image exists only
        once a cropped bitmap does. */
    predicate Valid()
      reads this
    {
      CropCoherent(env, Snapshot()) &&
      (enhancedPicture.Some? ==> croppedBitmap.Some?)
    }

    /** The picture and corners arrive as arguments; nothing is derived yet. */
    constructor (env: Collaborators, picture: Option<Mat>, corners: Option<Corners>)
      ensures Valid()
      ensures this.env == env && this.picture == picture && this.corners == corners
      ensures Snapshot() == InitialFields(picture)
    {
      this.env := env;
      this.picture := picture;
      this.corners := corners;
      croppedPicture := None;
      enhancedPicture := None;
      croppedBitmap := None;
    }

    /** The crop button: returns the task it dispatches, if any. The guard
        tests only for a delivered crop, not for one still running. */
    method Crop(quad: Corners) returns (task: Option<CropTask>)
      ensures task == RequestCrop(Snapshot(), quad)
      ensures task.None? <==> picture.None? || croppedBitmap.Some?
      ensures task.Some? ==> task.value.source == picture.value && task.value.quad == quad
    {
      if picture.None? {
        return None;
      }
      if croppedBitmap.Some? {
        return None;
      }
      task := Some(CropTask(picture.value, quad));
    }

    /** The crop task's callback, run with the rectified matrix. */
    method OnCropped(pc: Mat)
      requires Valid()
      modifies this
      ensures Valid()
      ensures Snapshot() == DeliverCrop(env, old(Snapshot()), pc)
      ensures croppedPicture == Some(pc) && croppedBitmap == Some(ToBitmap(env, pc))
      ensures croppedBitmap.value.width == pc.width && croppedBitmap.value.height == pc.height
      ensures enhancedPicture == old(enhancedPicture)
    {
      croppedPicture := Some(pc);
      croppedBitmap := Some(ToBitmap(env, pc));
    }

    /** The enhance button: returns the task it dispatches, if any. */
    method Enhance() returns (task: Option<EnhanceTask>)
      ensures task == RequestEnhance(Snapshot())
      ensures task.None? <==> croppedBitmap.None?
      ensures task.Some? ==> task.value.base == croppedBitmap.value
    {
      if croppedBitmap.None? {
        return None;
      }
      task := Some(EnhanceTask(croppedBitmap.value));
    }

    /** The enhance task's callback, run with the enhanced bitmap. It is only
        ever registered by an enhance request, which needs a cropped bitmap,
        and a cropped bitmap is never cleared. */
    method OnEnhanced(pc: Bitmap)
      requires Valid()
      requires croppedBitmap.Some?
      modifies this
      ensures Valid()
      ensures Snapshot() == DeliverEnhance(old(Snapshot()), pc)
      ensures enhancedPicture == Some(pc)
      ensures croppedPicture == old(croppedPicture) && croppedBitmap == old(croppedBitmap)
    {
      enhancedPicture := Some(pc);
    }

    /** The save button: which image is written, under which name, if any.
        It changes none of the presenter's fields. */
    method Save(hasPermission: bool, millis: nat) returns (file: Option<SavedFile>)
      ensures file == SaveSelection(Snapshot(), hasPermission, millis)
      ensures !hasPermission ==> file.None?
      ensures hasPermission && enhancedPicture.Some? ==>
        file == Some(SavedFile(ImagesDir, SaveName(EnhancePrefix, millis), enhancedPicture.value))
      ensures hasPermission && enhancedPicture.None? && croppedBitmap.Some? ==>
        file == Some(SavedFile(ImagesDir, SaveName(CropPrefix, millis), croppedBitmap.value))
      ensures file.Some? <==> hasPermission && (enhancedPicture.Some? || croppedBitmap.Some?)
    {
      if !hasPermission {
        return None;
      }
      var pic := enhancedPicture;
      if pic.Some? {
        return Some(SavedFile(ImagesDir, SaveName(EnhancePrefix, millis), pic.value));
      }
      var cropPic := croppedBitmap;
      if cropPic.Some? {
        return Some(SavedFile(ImagesDir, SaveName(CropPrefix, millis), cropPic.value));
      }
      file := None;
    }
  }
}
