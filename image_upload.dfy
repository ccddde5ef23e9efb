/** The image intake: a drop zone with a hidden file picker, replaced by a
    preview and a clear button once a preview exists. Its own state is
    whether a drag hovers over the zone and the preview's data URL; the
    chosen file goes to the orchestrator through its callbacks. Decoding the
    preview is asynchronous and arrives as a separate event. */
module ImageUpload {
  import opened Common
  import VQASystem

  const ImageTypePrefix := "image/"

  /** The file a drop hands on: the first file, when there is one and its
      MIME type starts with `image/`. */
  function DroppedImage(files: seq<File>): (r: Option<File>)
    ensures r.Some? <==> |files| > 0 && ImageTypePrefix <= files[0].mimeType
    ensures r.Some? ==> r.value == files[0]
  {
    if |files| > 0 && ImageTypePrefix <= files[0].mimeType then Some(files[0]) else None
  }

  /** The file a picker selection hands on: the first file, whatever its
      type, when the list exists and is non-empty. */
  function PickedFile(files: Option<seq<File>>): (r: Option<File>)
    ensures r.Some? <==> files.Some? && |files.value| > 0
    ensures r.Some? ==> r.value == files.value[0]
  {
    if files.Some? && |files.value| > 0 then Some(files.value[0]) else None
  }

  /** A drop is stricter than the picker: whatever a drop accepts, the
      picker would accept too, and the picker also takes non-image files. */
  lemma DropAcceptsLessThanPicker(files: seq<File>)
    ensures DroppedImage(files).Some? ==> PickedFile(Some(files)) == DroppedImage(files)
    ensures |files| > 0 && !(ImageTypePrefix <= files[0].mimeType) ==>
      DroppedImage(files).None? && PickedFile(Some(files)) == Some(files[0])
  {
  }

  /** The drop zone is rendered exactly when there is no preview; otherwise
      the preview and the clear button are. */
  function ShowsDropZone(imagePreview: Option<string>): (r: bool)
    ensures r <==> !Truthy(imagePreview)
  {
    imagePreview.None? || imagePreview.value == ""
  }

  class ImageUpload {
    var isDragOver: bool
    var imagePreview: Option<string>

    constructor ()
      ensures !isDragOver && imagePreview == None
    {
      isDragOver, imagePreview := false, None;
    }

    method HandleDragOver()
      modifies this
      ensures isDragOver && imagePreview == old(imagePreview)
    {
      isDragOver := true;
    }

    method HandleDragLeave()
      modifies this
      ensures !isDragOver && imagePreview == old(imagePreview)
    {
      isDragOver := false;
    }

    /** A drop ends the hover whether or not it is accepted. An accepted
      drop hands its first file to `onImageSelect` (the orchestrator's
      image-select handler) and starts decoding a preview; a refused one
      leaves the orchestrator and the preview as they were. */
    method HandleDrop(files: seq<File>, app: VQASystem.VQASystem) returns (decoding: Option<File>)
      modifies this, app
      ensures !isDragOver && imagePreview == old(imagePreview)
      ensures decoding == DroppedImage(files)
      ensures decoding.None? ==> unchanged(app)
      ensures decoding.Some? ==>
        && app.selectedImage == decoding && app.question == "" && app.answer == None && app.error == None
        && app.isLoading == old(app.isLoading) && app.history == old(app.history)
      ensures old(app.Valid()) ==> app.Valid()
    {
      isDragOver := false;
      decoding := None;
      if |files| > 0 && ImageTypePrefix <= files[0].mimeType {
        var file := files[0];
        app.HandleImageSelect(file);
        decoding := Some(file);
      }
    }

    /** A picker selection hands its first file to `onImageSelect` with no
      type check and starts decoding a preview. */
    method HandleFileSelect(files: Option<seq<File>>, app: VQASystem.VQASystem) returns (decoding: Option<File>)
      modifies this, app
      ensures isDragOver == old(isDragOver) && imagePreview == old(imagePreview)
      ensures decoding == PickedFile(files)
      ensures decoding.None? ==> unchanged(app)
      ensures decoding.Some? ==>
        && app.selectedImage == decoding && app.question == "" && app.answer == None && app.error == None
        && app.isLoading == old(app.isLoading) && app.history == old(app.history)
      ensures old(app.Valid()) ==> app.Valid()
    {
      decoding := None;
      if files.Some? && |files.value| > 0 {
        var file := files.value[0];
        app.HandleImageSelect(file);
        decoding := Some(file);
      }
    }

    /** The `FileReader` finished decoding a file into `dataUrl`. */
    method PreviewLoaded(dataUrl: string)
      modifies this
      ensures imagePreview == Some(dataUrl) && isDragOver == old(isDragOver)
      ensures ShowsDropZone(imagePreview) <==> dataUrl == ""
    {
      imagePreview := Some(dataUrl);
    }

    /** The clear button calls `onClearImage` (the orchestrator's
      clear-image handler) and drops the preview. */
    method HandleClear(app: VQASystem.VQASystem)
      modifies this, app
      ensures imagePreview == None && isDragOver == old(isDragOver)
      ensures ShowsDropZone(imagePreview)
      ensures app.selectedImage == None && app.question == "" && app.answer == None && app.error == None
      ensures app.isLoading == old(app.isLoading) && app.history == old(app.history)
      ensures app.Valid()
    {
      app.HandleClearImage();
      imagePreview := None;
    }

    /** The effect on the `selectedImage` prop: once there is no selected
      image, there is no preview either. */
    method SelectionEffect(selectedImage: Option<File>)
      modifies this
      ensures imagePreview == if selectedImage.None? then None else old(imagePreview)
      ensures selectedImage.None? ==> ShowsDropZone(imagePreview)
      ensures isDragOver == old(isDragOver)
    {
      if selectedImage.None? {
        imagePreview := None;
      }
    }
  }
}
