# SmartPaperScan crop screen — a Dafny model

This project models the presenter behind SmartPaperScan's crop screen
(`CropPresenter`). The presenter holds the photographed page (`picture`).
It also holds up to three artifacts derived from it: the rectified matrix
(`croppedPicture`), its bitmap (`croppedBitmap`) and the enhanced bitmap
(`enhancedPicture`). Three buttons drive it:

- **crop** dispatches a perspective crop only when there is a picture and no
  cropped bitmap yet;
- **enhance** dispatches an enhancement of the cropped bitmap whenever one
  exists, so a second enhancement replaces the first instead of stacking;
- **save** chooses the enhanced image (`enhance_` file), else the cropped
  bitmap (`crop_` file), else nothing. It writes nothing without write
  permission and never changes the presenter's fields.

Crop and enhance run their pixel work on background workers and update the
fields in a callback. Each is therefore modelled as a request method that
runs the guard and returns the task it dispatches (`Crop`, `Enhance`), and a
callback method that performs the field updates (`OnCropped`, `OnEnhanced`).
The perspective crop, the matrix-to-bitmap copy and the enhancement are
collaborators. They appear as function-valued fields of `Imaging.Collaborators`,
passed to the presenter's constructor together with the picture and the
detected corners.

Files:

- `imaging.dfy` (module `Imaging`): matrices, bitmaps, corners, the collaborators, the preview size.
- `filenames.dfy` (module `FileNames`): the save directory and the file names `enhance_<millis>.jpeg` and `crop_<millis>.jpeg`.
- `crop_presenter.dfy` (module `Crop`): the guard and update functions and the class `CropPresenter`, whose methods are proved against them.
- `session.dfy` (module `Session`): whole sessions as event sequences. Button presses and deliveries of pending tasks come in any order. The lemmas hold over every such sequence.

Crop is not at-most-once. The crop guard tests only `croppedBitmap`, and that
field is set only when a result is delivered. So two crop presses before the
first result arrives both dispatch a rectification, and the later delivery
overwrites the earlier one (`Session.DoubleCropDispatch`). The model states
only what the code guarantees: once a crop has been delivered and no crop
task is still running, the cropped images never change again
(`Session.CropNotOverwritten`).

A late second crop delivery can also leave the enhanced image stale. If an
enhancement of the first crop is delivered before the second crop result
arrives, the presenter ends up holding the second cropped bitmap and the
enhancement of the first. Save then writes that stale enhancement under the
`enhance_` prefix (`Session.StaleEnhancement`). The enhancement is the
enhancement of the held cropped bitmap only while no crop task is pending
(`Session.EnhanceReplaces`).

## Model

| member | source | states |
|---|---|---|
| `Crop.CropPresenter.constructor` | app/src/main/java/com/pengke/paper/scanner/crop/CropPresenter.kt:35-41 | picture and corners come from the caller; no cropped, cropped-bitmap or enhanced artifact exists; the fields are coherent (the cropped matrix and bitmap are paired, and an enhanced image needs a cropped bitmap) |
| `Crop.CropPresenter.Crop` | app/src/main/java/com/pengke/paper/scanner/crop/CropPresenter.kt:103-116 | a crop task is dispatched exactly when there is a picture and no cropped bitmap; the task rectifies that picture by the corners confirmed at the press; no field changes |
| `Crop.CropPresenter.OnCropped` | app/src/main/java/com/pengke/paper/scanner/crop/CropPresenter.kt:119-123 | the delivered matrix becomes `croppedPicture`, a bitmap of the same size made from it becomes `croppedBitmap`, `enhancedPicture` is unchanged, and the matrix/bitmap pairing stays coherent |
| `Crop.CropPresenter.Enhance` | app/src/main/java/com/pengke/paper/scanner/crop/CropPresenter.kt:132-139 | an enhance task is dispatched exactly when a cropped bitmap exists, and it always starts from the cropped bitmap; no field changes |
| `Crop.CropPresenter.OnEnhanced` | app/src/main/java/com/pengke/paper/scanner/crop/CropPresenter.kt:143-144 | called only while a cropped bitmap exists, as every enhance task is dispatched past that check; the delivered bitmap replaces `enhancedPicture`; the cropped matrix and bitmap are unchanged |
| `Crop.CropPresenter.Save` | app/src/main/java/com/pengke/paper/scanner/crop/CropPresenter.kt:149-181 | without permission nothing is written; with permission the enhanced image is written as `enhance_<millis>.jpeg` even when a cropped bitmap exists, else the cropped bitmap as `crop_<millis>.jpeg`; a file is written exactly when permission is granted and one of the two exists; no field changes |
| `FileNames.Decimal` | app/src/main/java/com/pengke/paper/scanner/crop/CropPresenter.kt:161 | the CPU-millisecond count in a file name is a non-empty string of decimal digits without a leading zero |
| `FileNames.DecimalRoundTrip` | app/src/main/java/com/pengke/paper/scanner/crop/CropPresenter.kt:161 | reading the digits back gives the millisecond count: the rendering loses nothing |
| `FileNames.SaveNameCollision` | app/src/main/java/com/pengke/paper/scanner/crop/CropPresenter.kt:161-171 | two saves get the same file name exactly when they save the same kind of artifact at the same main-thread CPU-millisecond count; an enhanced file never takes a cropped file's name |
| `Session.NoPictureIsInert` | app/src/main/java/com/pengke/paper/scanner/crop/CropPresenter.kt:103-107 | without a picture, every sequence of presses leaves the session exactly as it started: no crop task, no enhance task, no artifact |
| `Session.CropNotOverwritten` | app/src/main/java/com/pengke/paper/scanner/crop/CropPresenter.kt:109-112 | once a crop is delivered and no crop task is still running, the cropped matrix and bitmap keep their values through every later sequence of events |
| `Session.DoubleCropDispatch` | app/src/main/java/com/pengke/paper/scanner/crop/CropPresenter.kt:109-122 | two crop presses before any delivery dispatch two rectifications, and the second delivered result replaces the first |
| `Session.StaleEnhancement` | app/src/main/java/com/pengke/paper/scanner/crop/CropPresenter.kt:109-161 | two crop presses, the first result, an enhance press and its result, then the second crop result: nothing is pending, the held cropped bitmap is the second crop's, the enhanced image is the enhancement of the first crop's, and save with permission writes that enhancement under `enhance_` |
| `Session.StartCoherent` | app/src/main/java/com/pengke/paper/scanner/crop/CropPresenter.kt:36-41 | a fresh session is coherent |
| `Session.CoherentPreserved` | app/src/main/java/com/pengke/paper/scanner/crop/CropPresenter.kt:109-144 | every sequence of events keeps the session coherent: the cropped matrix and bitmap exist together and the bitmap is made from the matrix; an enhanced image never exists without a cropped bitmap; every pending crop task works on the session's picture |
| `Session.CropThenSettles` | app/src/main/java/com/pengke/paper/scanner/crop/CropPresenter.kt:114-123 | pressing crop and receiving the result stores the crop of the picture by the confirmed corners, with nothing left pending |
| `Session.EnhanceReplaces` | app/src/main/java/com/pengke/paper/scanner/crop/CropPresenter.kt:138-144 | after a crop has settled, any number of enhance presses and deliveries leaves the cropped bitmap unchanged; the enhanced image, when present, is the enhancement of the cropped bitmap and never of an earlier enhanced image |
| `Session.CropEnhanceTwiceSave` | app/src/main/java/com/pengke/paper/scanner/crop/CropPresenter.kt:114-167 | crop, enhance twice and save with permission: the file written is the single enhancement of the cropped bitmap, named with the `enhance_` prefix |

## Left out

- The preview pipeline that runs when the screen opens (CropPresenter.kt:47-89) is left out. It is a chain of native OpenCV calls (grey conversion, Gaussian blur, triangle threshold, Canny, dilation) shown in image views. Only the preview bitmap's size is modelled (`Imaging.PreviewSize`).
- The internals of the perspective crop, the matrix-to-bitmap copy and the enhancement are left out. They are floating-point image processing in code that is not part of this model. They are total functions in `Imaging.Collaborators`. A collaborator that throws is not modelled; the source registers no error handler for either task.
- Threads and scheduling are left out (`subscribeOn`/`observeOn`). The model keeps only the split between dispatch and delivery: pending tasks may be delivered in any order, one at a time.
- A task's inputs are taken when the button is pressed. In the source, the worker reads the corners from the corner editor and `croppedBitmap` from the presenter when it starts running, which is normally right after the press.
- The corners passed to a crop are the ones the corner editor holds at the press (CropPresenter.kt:115). The `corners` field only seeds the corner editor (CropPresenter.kt:44) and is stored but not otherwise read.
- Crop.CropPresenter.constructor: keeps the source's null checks on the picture (CropPresenter.kt:104-107) and admits a presenter without a picture, as does `Session.NoPictureIsInert`. The screen's initialisation passes that nullable picture to OpenCV's matrix-to-bitmap copy (CropPresenter.kt:47), which probably throws on a null matrix; that library is not part of this model, so the model does not claim that a presenter without a picture is unreachable.
- The process-wide `SourceManager` holder of the picture and corners is replaced by constructor arguments.
- File I/O is left out: creating the directory (done whenever permission is granted, even when nothing is then saved), JPEG compression, stream handling and the media-store insert in `addImageToGallery` (CropPresenter.kt:92-101). `Save` returns the directory, file name and image it would write.
- The millisecond count in file names (`SystemClock.currentThreadTimeMillis`) is a parameter of `Save`. It is the main thread's CPU time in milliseconds, which restarts near zero in every process, so a later session can reuse an earlier file name and overwrite that file; the model does not track files across sessions.
- Logging, toasts, the permission check itself (a boolean parameter) and the image-view updates and visibility changes (CropPresenter.kt:124-128, 145) are left out.
- `CropActivity.kt` only wires the three buttons to the presenter and returns views; it is not part of this model.
