/**
 * The export templates and the capture-type labels of the review pages: the six-template table
 * of src/review/templates.js, the older four-template table of review.js, and the label lookups.
 */
module Templates {
  import opened Wrappers
  import opened ListOps

  /** A template's identity; its description and HTML file paths are not modelled. */
  datatype Template = Template(id: string, className: string, name: string)

  const DefaultTemplateId: string := "classic"

  /** `PDF_TEMPLATES` of src/review/templates.js. */
  const PdfTemplates: seq<Template> := [
    Template("classic", "template-classic", "Classic Brief"),
    Template("spotlight", "template-spotlight", "Spotlight Guide"),
    Template("dossier", "template-dossier", "Dossier Notes"),
    Template("blueprint", "template-blueprint", "Blueprint Flow"),
    Template("premium", "template-premium", "Premium Showcase"),
    Template("minimalist", "template-minimalist", "Minimalist Clean")
  ]

  /** `PDF_TEMPLATES` of review.js. */
  const ReviewTemplates: seq<Template> := [
    Template("classic", "template-classic", "Classic Brief"),
    Template("spotlight", "template-spotlight", "Spotlight Guide"),
    Template("dossier", "template-dossier", "Dossier Notes"),
    Template("blueprint", "template-blueprint", "Blueprint Flow")
  ]

  function IdsOf(ts: seq<Template>): (r: seq<string>)
    ensures |r| == |ts| && forall i :: 0 <= i < |ts| ==> r[i] == ts[i].id
  {
    seq(|ts|, i requires 0 <= i < |ts| => ts[i].id)
  }

  /** `templates.some((t) => t.id === id)`. */
  predicate Listed(ts: seq<Template>, id: string) {
    exists i :: 0 <= i < |ts| && ts[i].id == id
  }

  /** `templates.find((t) => t.id === id)`. */
  function Find(ts: seq<Template>, id: string): (r: Option<Template>)
    ensures r.Some? <==> Listed(ts, id)
    ensures r.Some? ==> r.value in ts && r.value.id == id
  {
    if ts == [] then None
    else if ts[0].id == id then Some(ts[0])
    else
      var r := Find(ts[1..], id);
      assert Listed(ts[1..], id) ==> Listed(ts, id) by {
        if Listed(ts[1..], id) {
          var i :| 0 <= i < |ts[1..]| && ts[1..][i].id == id;
          assert ts[i + 1].id == id;
        }
      }
      r
  }

  /** Both tables hold distinct, non-empty ids, start with "classic", and agree on what they share. */
  lemma TemplateTablesWellFormed()
    ensures NoDups(IdsOf(PdfTemplates)) && NoDups(IdsOf(ReviewTemplates))
    ensures forall i :: 0 <= i < |PdfTemplates| ==> PdfTemplates[i].id != ""
    ensures PdfTemplates[0].id == DefaultTemplateId && ReviewTemplates[0].id == DefaultTemplateId
    ensures ReviewTemplates == PdfTemplates[..4]
  {
    var ids := IdsOf(PdfTemplates);
    assert ids == ["classic", "spotlight", "dossier", "blueprint", "premium", "minimalist"];
    assert IdsOf(ReviewTemplates) == ids[..4];
  }

  /** `normalizeTemplateId`: a listed id stays, anything else becomes "classic". */
  function NormalizeTemplateId(ts: seq<Template>, id: string): (r: string)
    ensures Listed(ts, id) ==> r == id
    ensures !Listed(ts, id) ==> r == DefaultTemplateId
  {
    if Listed(ts, id) then id else DefaultTemplateId
  }

  /** Normalizing twice is normalizing once, for either table. */
  lemma NormalizeTemplateIdIdempotent(ts: seq<Template>, id: string)
    requires ts == PdfTemplates || ts == ReviewTemplates
    ensures NormalizeTemplateId(ts, NormalizeTemplateId(ts, id)) == NormalizeTemplateId(ts, id)
    ensures Listed(ts, NormalizeTemplateId(ts, id))
  {
    assert ts[0].id == DefaultTemplateId;
  }

  /** `getTemplateById` of src/review/templates.js. */
  function GetTemplateById(id: string): (t: Template)
    ensures t in PdfTemplates
    ensures t.id == NormalizeTemplateId(PdfTemplates, id)
  {
    var normalized := NormalizeTemplateId(PdfTemplates, id);
    assert PdfTemplates[0].id == DefaultTemplateId;
    match Find(PdfTemplates, normalized)
    case Some(t) => t
    case None => PdfTemplates[0]
  }

  /** `getTemplateById` of review.js, which looks the raw id up and falls back to the first template. */
  function GetReviewTemplateById(id: string): (t: Template)
    ensures t in ReviewTemplates
    ensures Listed(ReviewTemplates, id) ==> t.id == id
    ensures !Listed(ReviewTemplates, id) ==> t == ReviewTemplates[0]
  {
    match Find(ReviewTemplates, id)
    case Some(t) => t
    case None => ReviewTemplates[0]
  }

  /** The review page applies `getTemplateById(normalizeTemplateId(id))`: the normalized id's template. */
  lemma ReviewTemplateOfNormalized(id: string)
    ensures GetReviewTemplateById(NormalizeTemplateId(ReviewTemplates, id)).id == NormalizeTemplateId(ReviewTemplates, id)
  {
    assert ReviewTemplates[0].id == DefaultTemplateId;
  }

  // ---------------------------------------------------------------------------
  // Capture-type labels
  // ---------------------------------------------------------------------------

  /**
   * Properties every plain JavaScript object inherits from `Object.prototype`; reading one of them
   * from the `labels` literal yields a function or an object, not a label.
   */
  const InheritedKeys: set<string> := {
    "constructor", "hasOwnProperty", "isPrototypeOf", "propertyIsEnumerable", "toLocaleString",
    "toString", "valueOf", "__proto__", "__defineGetter__", "__defineSetter__",
    "__lookupGetter__", "__lookupSetter__"
  }

  /** What `labels[key]` evaluates to. */
  datatype Property = Own(text: string) | Inherited(name: string) | Absent

  function LabelsLookup(key: string): Property {
    if key == "visible" then Own("Visible")
    else if key == "selection" then Own("Selection")
    else if key == "fullpage" then Own("Full Page")
    else if key in InheritedKeys then Inherited(key)
    else Absent
  }

  /** `labels[captureType] || "Capture"` as written: an inherited member is truthy and comes back. */
  function CaptureTypeLabelAsWritten(captureType: string): (r: Property)
    ensures r.Inherited? <==> captureType in InheritedKeys
  {
    match LabelsLookup(captureType)
    case Own(text) => Own(text)
    case Inherited(name) => Inherited(name)
    case Absent => Own("Capture")
  }

  /** A capture type named like an inherited member yields that member instead of a label. */
  lemma CaptureTypeLabelAsWrittenInherits()
    ensures CaptureTypeLabelAsWritten("toString") == Inherited("toString")
    ensures CaptureTypeLabelAsWritten("constructor").Inherited?
  {
  }

  /**
   * `captureTypeLabel` (src/review/templates.js) and `formatCaptureType` (review.js), reading only
   * the literal's own properties: the three capture kinds get their labels, anything else "Capture".
   */
  function CaptureTypeLabel(captureType: string): (r: string)
    ensures captureType == "visible" <==> r == "Visible"
    ensures captureType == "selection" <==> r == "Selection"
    ensures captureType == "fullpage" <==> r == "Full Page"
    ensures captureType != "visible" && captureType != "selection" && captureType != "fullpage" ==> r == "Capture"
  {
    if captureType == "visible" then "Visible"
    else if captureType == "selection" then "Selection"
    else if captureType == "fullpage" then "Full Page"
    else "Capture"
  }

  /** Outside the inherited names the lookup as written and the own-property lookup agree. */
  lemma CaptureTypeLabelAgrees(captureType: string)
    requires captureType !in InheritedKeys
    ensures CaptureTypeLabelAsWritten(captureType) == Own(CaptureTypeLabel(captureType))
  {
  }
}
