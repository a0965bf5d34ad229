/**
 * The capture marker that ties a workspace image block to its capture: a caption starting with
 * `[capture-id:<id>]`. Both src/review/App.jsx and src/review/EditorJsField.jsx recognise it with
 * the pattern `/\[capture-id:([^\]]+)\]/`, whose first match is found by `FindMarker`.
 */
module CaptureMarker {
  import opened Wrappers
  import opened Text
  import opened Html

  const MarkerPrefix: string := "[capture-id:"

  /** `CAPTURE_MARKER_REGEX` matches at `i`: the prefix, at least one character, then `]`. */
  predicate MatchesAt(s: string, i: int) {
    OccursAt(s, MarkerPrefix, i) && i + |MarkerPrefix| < |s| && s[i + |MarkerPrefix|] != ']' &&
    IndexOfFrom(s, ']', i + |MarkerPrefix|) < |s|
  }

  /** The first position at or after `from` where the pattern matches. */
  function FirstMatch(s: string, from: nat): (r: Option<nat>)
    requires from <= |s|
    ensures r.Some? ==> from <= r.value < |s| && MatchesAt(s, r.value)
    ensures r.Some? ==> forall k :: from <= k < r.value ==> !MatchesAt(s, k)
    ensures r.None? ==> forall k :: from <= k <= |s| ==> !MatchesAt(s, k)
    decreases |s| - from
  {
    if from == |s| then None
    else if MatchesAt(s, from) then Some(from)
    else FirstMatch(s, from + 1)
  }

  /** A match: `s[start..end]` is `match[0]` and `id` is `match[1]`. */
  datatype Match = Match(start: nat, end: nat, id: string)

  /** `CAPTURE_MARKER_REGEX.exec(s)`. */
  function FindMarker(s: string): (r: Option<Match>)
    ensures r.Some? ==> r.value.start < r.value.end <= |s| && r.value.id != [] && ']' !in r.value.id
    ensures r.Some? ==> s[r.value.start..r.value.end] == MarkerPrefix + r.value.id + "]"
    ensures r.Some? ==> MatchesAt(s, r.value.start) && forall k :: 0 <= k < r.value.start ==> !MatchesAt(s, k)
    ensures r.None? <==> forall k :: 0 <= k <= |s| ==> !MatchesAt(s, k)
  {
    match FirstMatch(s, 0)
    case None => None
    case Some(i) =>
      var j := i + |MarkerPrefix|;
      var close := IndexOfFrom(s, ']', j);
      assert s[i..close + 1] == s[i..j] + s[j..close] + "]";
      Some(Match(i, close + 1, s[j..close]))
  }

  /** `createCaptureMarker`. */
  function CreateCaptureMarker(id: string): string {
    MarkerPrefix + id + "]"
  }

  /** `parseCaptureIdFromCaption` on the caption as a string. */
  function ParseCaptureId(caption: string): (r: Option<string>)
    ensures r.Some? <==> exists k :: 0 <= k <= |caption| && MatchesAt(caption, k)
    ensures r.Some? ==> r.value != [] && ']' !in r.value
  {
    match FindMarker(caption)
    case None => None
    case Some(m) => Some(m.id)
  }

  /** A caption that starts with a marker names that marker's capture, whatever follows. */
  lemma MarkerAtFront(id: string, rest: string)
    requires id != [] && ']' !in id
    ensures FindMarker(CreateCaptureMarker(id) + rest) == Some(Match(0, |id| + 13, id))
  {
    var t := CreateCaptureMarker(id) + rest;
    var j := |MarkerPrefix|;
    assert t[..j] == MarkerPrefix;
    assert t[j..j + |id|] == id;
    assert t[j + |id|] == ']';
    var close := IndexOfFrom(t, ']', j);
    assert t[j] == id[0];
    assert close == j + |id|;
    assert MatchesAt(t, 0);
  }

  /** `parseCaptureIdFromCaption(createCaptureMarker(id)) == id` for an id without `]`. */
  lemma ParseCreatedMarker(id: string)
    requires id != [] && ']' !in id
    ensures ParseCaptureId(CreateCaptureMarker(id)) == Some(id)
  {
    MarkerAtFront(id, "");
    assert CreateCaptureMarker(id) + "" == CreateCaptureMarker(id);
  }

  /** `caption.replace(CAPTURE_MARKER_REGEX, "")`: only the first match is removed. */
  function RemoveFirstMarker(caption: string): (r: string)
    ensures FindMarker(caption).None? ==> r == caption
    ensures FindMarker(caption).Some? ==> |r| == |caption| - (FindMarker(caption).value.end - FindMarker(caption).value.start)
  {
    match FindMarker(caption)
    case None => caption
    case Some(m) => caption[..m.start] + caption[m.end..]
  }

  /**
   * `buildCaptureImageCaption`: the marker, then the existing caption without its first marker,
   * or else the trimmed title.
   */
  function BuildCaptureImageCaption(id: string, title: string, existing: string): (r: string)
    ensures StartsWith(r, CreateCaptureMarker(id))
    ensures r == CreateCaptureMarker(id) || r[|CreateCaptureMarker(id)|] == ' '
  {
    var marker := CreateCaptureMarker(id);
    var cleaned := Trim(RemoveFirstMarker(existing));
    var suffix := if cleaned != "" then cleaned else Trim(title);
    if suffix != "" then marker + " " + suffix else marker
  }

  /** The caption a capture block is given always parses back to its capture. */
  lemma BuildCaptionNamesCapture(id: string, title: string, existing: string)
    requires id != [] && ']' !in id
    ensures ParseCaptureId(BuildCaptureImageCaption(id, title, existing)) == Some(id)
  {
    var r := BuildCaptureImageCaption(id, title, existing);
    var marker := CreateCaptureMarker(id);
    MarkerAtFront(id, r[|marker|..]);
    assert r == marker + r[|marker|..];
  }

  /** What `parseCaptureMarker` in src/review/EditorJsField.jsx returns. */
  datatype MarkerInfo = MarkerInfo(marker: string, captureId: Option<string>, visibleCaption: string)

  /**
   * `parseCaptureMarker`: without a marker, the trimmed caption; with one, the marker text, the
   * id between the brackets, and the trimmed caption with that first marker removed.
   */
  function ParseCaptureMarker(caption: string): (r: MarkerInfo)
    ensures FindMarker(caption).None? ==> r == MarkerInfo("", None, Trim(caption))
    ensures FindMarker(caption).Some? ==>
      var m := FindMarker(caption).value;
      r.marker == CreateCaptureMarker(m.id) && r.captureId == Some(m.id) &&
      r.visibleCaption == Trim(caption[..m.start] + caption[m.end..])
  {
    match FindMarker(caption)
    case None => MarkerInfo("", None, Trim(caption))
    case Some(m) => MarkerInfo(caption[m.start..m.end], Some(m.id), Trim(RemoveFirstMarker(caption)))
  }

  /** The editor's copy of the pattern finds the same capture as the workspace's. */
  lemma MarkerParsersAgree(caption: string)
    ensures ParseCaptureMarker(caption).captureId == ParseCaptureId(caption)
  {
  }

  /** A block captioned by `buildCaptureImageCaption` keeps exactly the capture's marker in the editor. */
  lemma EditorKeepsBuiltMarker(id: string, title: string, existing: string)
    requires id != [] && ']' !in id
    ensures ParseCaptureMarker(BuildCaptureImageCaption(id, title, existing)).marker == CreateCaptureMarker(id)
    ensures ParseCaptureMarker(CreateCaptureMarker(id)).captureId == Some(id)
  {
    var r := BuildCaptureImageCaption(id, title, existing);
    var marker := CreateCaptureMarker(id);
    MarkerAtFront(id, r[|marker|..]);
    assert r == marker + r[|marker|..];
    ParseCreatedMarker(id);
  }
}
