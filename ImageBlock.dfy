/**
 * The workspace editor's image block (src/review/EditorJsField.jsx): the normalization of its
 * data, and the `WorkspaceImageTool` object that holds one block while it is edited and hands
 * its data back on save.
 */
module ImageBlock {
  import opened Wrappers
  import opened Json
  import opened CaptureMarker

  /** The data of an image block as `normalizeImageBlockData` lays it out. */
  datatype ImageData = ImageData(url: string, caption: string, withBorder: bool, withBackground: bool, stretched: bool)

  /** The object the editor stores for that data. */
  function ImageDataValue(d: ImageData): Value {
    Obj([
      Field("file", Obj([Field("url", Str(d.url))])),
      Field("caption", Str(d.caption)),
      Field("withBorder", Bool(d.withBorder)),
      Field("withBackground", Bool(d.withBackground)),
      Field("stretched", Bool(d.stretched))
    ])
  }

  /**
   * `normalizeImageBlockData(rawData)`: the url of an object `file` and the caption when they are
   * strings, "" otherwise, and each flag by truthiness.
   */
  function NormalizeImageBlockData(rawData: Value): (r: ImageData)
    ensures Get(Get(rawData, "file"), "url").Str? ==> r.url == Get(Get(rawData, "file"), "url").s
    ensures !Get(Get(rawData, "file"), "url").Str? ==> r.url == ""
    ensures Get(rawData, "caption").Str? ==> r.caption == Get(rawData, "caption").s
    ensures !Get(rawData, "caption").Str? ==> r.caption == ""
    ensures r.withBorder == Truthy(Get(rawData, "withBorder"))
    ensures r.withBackground == Truthy(Get(rawData, "withBackground"))
    ensures r.stretched == Truthy(Get(rawData, "stretched"))
  {
    var data := if IsObjectLike(rawData) then rawData else Obj([]);
    var file := if Truthy(Get(data, "file")) && IsObjectLike(Get(data, "file")) then Get(data, "file") else Obj([Field("url", Str(""))]);
    ImageData(
      GetString(file, "url"),
      GetString(data, "caption"),
      Truthy(Get(data, "withBorder")),
      Truthy(Get(data, "withBackground")),
      Truthy(Get(data, "stretched")))
  }

  /** Normalized data normalizes to itself. */
  lemma NormalizeImageBlockDataFixed(d: ImageData)
    ensures NormalizeImageBlockData(ImageDataValue(d)) == d
  {
    var v := ImageDataValue(d);
    var fs := v.fields;
    assert fs[0].key[0] == 'f' && fs[1].key[0] == 'c' && fs[4].key[0] == 's';
    assert fs[2].key[5] == 'o' && fs[3].key[5] == 'a';
    assert Lookup(fs, "caption") == Lookup(fs[1..], "caption") == Str(d.caption);
    assert Lookup(fs[2..], "withBorder") == Bool(d.withBorder);
    assert Lookup(fs, "withBorder") == Lookup(fs[1..], "withBorder") == Lookup(fs[2..], "withBorder");
    assert Lookup(fs[3..], "withBackground") == Bool(d.withBackground);
    assert Lookup(fs[2..], "withBackground") == Lookup(fs[3..], "withBackground");
    assert Lookup(fs, "withBackground") == Lookup(fs[1..], "withBackground") == Lookup(fs[2..], "withBackground");
    assert Lookup(fs[4..], "stretched") == Bool(d.stretched);
    assert Lookup(fs[3..], "stretched") == Lookup(fs[4..], "stretched");
    assert Lookup(fs[1..], "stretched") == Lookup(fs[2..], "stretched") == Lookup(fs[3..], "stretched");
    assert Lookup(fs, "stretched") == Lookup(fs[1..], "stretched");
  }

  // ---------------------------------------------------------------------------
  // save / validate
  // ---------------------------------------------------------------------------

  /**
   * What `save()` returns: the image element's `src` when the element exists and has one, else
   * the data's url; the capture marker in preference to the caption; all flags off.
   */
  function SavedData(imageSrc: Option<string>, data: ImageData, captureMarker: string): (r: ImageData)
    ensures captureMarker != "" ==> r.caption == captureMarker
    ensures captureMarker == "" ==> r.caption == data.caption
    ensures imageSrc.Some? && imageSrc.value != "" ==> r.url == imageSrc.value
    ensures (imageSrc.None? || imageSrc.value == "") ==> r.url == data.url
    ensures !r.withBorder && !r.withBackground && !r.stretched
  {
    var imageUrl := if imageSrc.Some? && imageSrc.value != "" then imageSrc.value else data.url;
    ImageData(imageUrl, if captureMarker != "" then captureMarker else data.caption, false, false, false)
  }

  /** `validate(savedData)`: `savedData && savedData.file && savedData.file.url`. */
  predicate Validate(savedData: Value) {
    Truthy(savedData) && Truthy(Get(savedData, "file")) && Truthy(Get(Get(savedData, "file"), "url"))
  }

  /** Saved data is valid exactly when it has a non-empty url. */
  lemma ValidateSaved(d: ImageData)
    ensures Validate(ImageDataValue(d)) <==> d.url != ""
  {
    assert Get(ImageDataValue(d), "file") == Obj([Field("url", Str(d.url))]);
  }

  /** The capture a block names survives a save and the normalization of the saved data. */
  lemma SaveKeepsCapture(imageSrc: Option<string>, rawData: Value)
    ensures var d := NormalizeImageBlockData(rawData);
      var info := ParseCaptureMarker(d.caption);
      var saved := NormalizeImageBlockData(ImageDataValue(SavedData(imageSrc, d, info.marker)));
      ParseCaptureMarker(saved.caption).captureId == info.captureId
  {
    var d := NormalizeImageBlockData(rawData);
    var info := ParseCaptureMarker(d.caption);
    var s := SavedData(imageSrc, d, info.marker);
    NormalizeImageBlockDataFixed(s);
    match FindMarker(d.caption)
    case None =>
    case Some(m) =>
      EditorKeepsBuiltMarker(m.id, "", "");
  }

  /**
   * Removing the image as written: the data's url is cleared but the image element keeps its
   * `src`, which `save()` prefers, so the saved block still carries the image and validates.
   */
  lemma RemovedImageIsSavedAsWritten(src: string, d: ImageData, captureMarker: string)
    requires src != ""
    ensures var saved := SavedData(Some(src), d.(url := ""), captureMarker);
      saved.url == src && Validate(ImageDataValue(saved))
  {
    ValidateSaved(SavedData(Some(src), d.(url := ""), captureMarker));
  }

  /** With the element dropped as well, the saved block has no url and fails validation. */
  lemma RemovedImageIsDropped(d: ImageData, captureMarker: string)
    ensures var saved := SavedData(None, d.(url := ""), captureMarker);
      saved.url == "" && !Validate(ImageDataValue(saved))
  {
    ValidateSaved(SavedData(None, d.(url := ""), captureMarker));
  }

  // ---------------------------------------------------------------------------
  // The tool object
  // ---------------------------------------------------------------------------

  /**
   * `WorkspaceImageTool`. `imageSrc` stands for `this.imageElement?.src` (`None` until `render`
   * creates the element) and `wrapperShown` for the figure's display style.
   */
  class WorkspaceImageTool {
    var data: ImageData
    var readOnly: bool
    var captureMarker: string
    var captureId: Option<string>
    var visibleCaption: string
    var imageSrc: Option<string>
    var wrapperShown: bool

    /** `constructor({ data, readOnly })`: the data normalized and its caption's marker parsed. */
    constructor(rawData: Value, readOnly: bool)
      ensures data == NormalizeImageBlockData(rawData) && this.readOnly == readOnly
      ensures var info := ParseCaptureMarker(data.caption);
        captureMarker == info.marker && captureId == info.captureId && visibleCaption == info.visibleCaption
      ensures imageSrc.None? && wrapperShown
    {
      var normalized := NormalizeImageBlockData(rawData);
      var markerInfo := ParseCaptureMarker(normalized.caption);
      data := normalized;
      this.readOnly := readOnly;
      captureMarker := markerInfo.marker;
      captureId := markerInfo.captureId;
      visibleCaption := markerInfo.visibleCaption;
      imageSrc := None;
      wrapperShown := true;
    }

    /** `render()`: the image element shows the data's url. */
    method Render()
      modifies this
      ensures imageSrc == Some(data.url) && wrapperShown
      ensures data == old(data) && readOnly == old(readOnly) && captureMarker == old(captureMarker)
      ensures captureId == old(captureId) && visibleCaption == old(visibleCaption)
    {
      imageSrc := Some(data.url);
      wrapperShown := true;
    }

    /**
     * The "Remove Image" handler as written. `deleted` is what `tryDeleteBlock` reports; when the
     * editor could not delete the block, the url and visible caption are cleared and the figure
     * hidden, but the element's `src` is left as it was.
     */
    method RemoveAsWritten(deleted: bool)
      requires imageSrc.Some? && !readOnly
      modifies this
      ensures deleted ==> data == old(data) && visibleCaption == old(visibleCaption) && wrapperShown == old(wrapperShown)
      ensures !deleted ==> data == old(data).(url := "") && visibleCaption == "" && !wrapperShown
      ensures imageSrc == old(imageSrc) && readOnly == old(readOnly)
      ensures captureMarker == old(captureMarker) && captureId == old(captureId)
    {
      if deleted {
        return;
      }
      data := data.(url := "");
      visibleCaption := "";
      wrapperShown := false;
    }

    /** The "Remove Image" handler with the image element dropped too, so the removal is saved. */
    method Remove(deleted: bool)
      requires imageSrc.Some? && !readOnly
      modifies this
      ensures deleted ==> data == old(data) && visibleCaption == old(visibleCaption)
      ensures deleted ==> wrapperShown == old(wrapperShown) && imageSrc == old(imageSrc)
      ensures !deleted ==> data == old(data).(url := "") && visibleCaption == "" && !wrapperShown && imageSrc.None?
      ensures !deleted ==> !Validate(Save())
      ensures readOnly == old(readOnly) && captureMarker == old(captureMarker) && captureId == old(captureId)
    {
      if deleted {
        return;
      }
      data := data.(url := "");
      visibleCaption := "";
      wrapperShown := false;
      imageSrc := None;
      RemovedImageIsDropped(old(data), captureMarker);
    }

    /** `save()`. */
    function Save(): (r: Value)
      reads this
      ensures Validate(r) <==> SavedData(imageSrc, data, captureMarker).url != ""
    {
      ValidateSaved(SavedData(imageSrc, data, captureMarker));
      ImageDataValue(SavedData(imageSrc, data, captureMarker))
    }
  }
}
