/** The dashboard (src/components/Dashboard.tsx): the five state slots of the
    upload panel and their transitions, the guards on its two buttons, and
    the pure rules that decide how a prediction is shown. */
module Dashboard {
  import opened Wrappers
  import opened Browser
  import Api

  /** The message shown when the rejected value is not an `Error`. */
  const UploadFallback: string := "Prediction failed"

  /** What `catch (err)` receives: an `Error` with its message, or any other value. */
  datatype Caught = ErrorInstance(message: string) | NonError

  /** `err instanceof Error ? err.message : 'Prediction failed'`. */
  function CaughtMessage(err: Caught): (m: string)
    ensures err.ErrorInstance? ==> m == err.message
    ensures err.NonError? ==> m == UploadFallback
  {
    match err
    case ErrorInstance(message) => message
    case NonError => UploadFallback
  }

  // ---------------------------------------------------------------------
  // Severity tiers and category indicators

  /** The five colour tiers of `getSeverityColor`; `Neutral` is the gray default. */
  datatype Tier = Low | Medium | High | Critical | Neutral

  /** The category icon of `getCategoryIcon`: a check mark or a warning. */
  datatype Indicator = Positive | Warning

  /** `toLowerCase` on one character, for the letters A to Z. */
  function LowerChar(c: char): char {
    if 'A' <= c <= 'Z' then (c as int - 'A' as int + 'a' as int) as char else c
  }

  function ToLower(s: string): (r: string)
    ensures |r| == |s|
    ensures forall i :: 0 <= i < |s| ==> r[i] == LowerChar(s[i])
  {
    if s == [] then [] else [LowerChar(s[0])] + ToLower(s[1..])
  }

  /** `s` spells the lower-case word `w` in any mix of cases. */
  predicate SpellsIgnoringCase(s: string, w: string) {
    |s| == |w| && forall i :: 0 <= i < |s| ==> LowerChar(s[i]) == w[i]
  }

  /** `getSeverityColor(severity)`, as the tier it picks. */
  function SeverityTier(severity: string): Tier {
    var key := ToLower(severity);
    if key == "low" then Low
    else if key == "medium" then Medium
    else if key == "high" then High
    else if key == "critical" then Critical
    else Neutral
  }

  /** Lower-casing gives the word `w` iff `s` spells it in some mix of cases. */
  lemma LowerMatchesWord(s: string, w: string)
    ensures ToLower(s) == w <==> SpellsIgnoringCase(s, w)
  {
  }

  /** Each named tier is chosen exactly by its word in any mix of cases,
      and every other string falls back to the neutral tier. */
  lemma SeverityTierByWord(severity: string)
    ensures SeverityTier(severity) == Low <==> SpellsIgnoringCase(severity, "low")
    ensures SeverityTier(severity) == Medium <==> SpellsIgnoringCase(severity, "medium")
    ensures SeverityTier(severity) == High <==> SpellsIgnoringCase(severity, "high")
    ensures SeverityTier(severity) == Critical <==> SpellsIgnoringCase(severity, "critical")
    ensures SeverityTier(severity) == Neutral <==>
      !SpellsIgnoringCase(severity, "low") && !SpellsIgnoringCase(severity, "medium") &&
      !SpellsIgnoringCase(severity, "high") && !SpellsIgnoringCase(severity, "critical")
  {
    LowerMatchesWord(severity, "low");
    LowerMatchesWord(severity, "medium");
    LowerMatchesWord(severity, "high");
    LowerMatchesWord(severity, "critical");
  }

  /** Two strings that differ only in the case of their letters get the same tier. */
  lemma SeverityTierIgnoresCase(s: string, t: string)
    requires |s| == |t|
    requires forall i :: 0 <= i < |s| ==> LowerChar(s[i]) == LowerChar(t[i])
    ensures SeverityTier(s) == SeverityTier(t)
  {
  }

  /** `getCategoryIcon(category)`: only the exact string `healthy` gets the
      check mark; the comparison is case-sensitive. */
  function CategoryIndicator(category: string): (i: Indicator)
    ensures i == Positive <==> category == "healthy"
  {
    if category == "healthy" then Positive else Warning
  }

  // ---------------------------------------------------------------------
  // Advisory lists

  /** One advisory block of the result panel: its heading and its items. */
  datatype Section = Section(title: string, items: seq<string>)

  /** A block on its own: rendered iff its list is non-empty. */
  function Shown(s: Section): seq<Section> {
    if s.items != [] then [s] else []
  }

  /** The blocks that are rendered: those whose list is non-empty, in order. */
  function NonEmptySections(sections: seq<Section>): (r: seq<Section>)
    ensures |r| <= |sections|
  {
    if sections == [] then [] else Shown(sections[0]) + NonEmptySections(sections[1..])
  }

  /** A block is rendered iff it is in the list and its items are non-empty. */
  lemma {:induction false} NonEmptySectionsMembers(sections: seq<Section>, s: Section)
    ensures s in NonEmptySections(sections) <==> s in sections && s.items != []
  {
    if sections != [] {
      NonEmptySectionsMembers(sections[1..], s);
      assert sections == [sections[0]] + sections[1..];
    }
  }

  /** Filtering distributes over concatenation, so the rendered blocks keep
      the order of the source list. */
  lemma {:induction false} NonEmptySectionsAppend(a: seq<Section>, b: seq<Section>)
    ensures NonEmptySections(a + b) == NonEmptySections(a) + NonEmptySections(b)
  {
    if a == [] {
      assert a + b == b;
    } else {
      assert (a + b)[1..] == a[1..] + b;
      NonEmptySectionsAppend(a[1..], b);
    }
  }

  /** The four advisory blocks of a prediction, in page order. */
  function AllSections(p: Api.Prediction): seq<Section> {
    [ Section("Visual Symptoms", p.visual_symptoms),
      Section("Natural Cure", p.natural_cure),
      Section("Chemical Treatment", p.chemical_cure),
      Section("Prevention Tips", p.prevention_tips) ]
  }

  function AdvisorySections(p: Api.Prediction): seq<Section> {
    NonEmptySections(AllSections(p))
  }

  /** The blocks shown for a prediction are exactly its non-empty lists,
      in the fixed page order, each with the server's items in order. */
  lemma AdvisorySectionsInOrder(p: Api.Prediction)
    ensures AdvisorySections(p) ==
      Shown(Section("Visual Symptoms", p.visual_symptoms)) +
      Shown(Section("Natural Cure", p.natural_cure)) +
      Shown(Section("Chemical Treatment", p.chemical_cure)) +
      Shown(Section("Prevention Tips", p.prevention_tips))
  {
    var all := AllSections(p);
    assert NonEmptySections(all[3..]) == Shown(all[3]) + NonEmptySections(all[4..]);
    assert NonEmptySections(all[2..]) == Shown(all[2]) + NonEmptySections(all[3..]) by {
      assert all[2..][1..] == all[3..];
    }
    assert NonEmptySections(all[1..]) == Shown(all[1]) + NonEmptySections(all[2..]) by {
      assert all[1..][1..] == all[2..];
    }
    assert all[4..] == [];
  }

  /** A healthy prediction of severity `Low` with no symptoms: the check
      mark, the low tier, and no symptoms block. */
  lemma HealthyLowScenario(p: Api.Prediction)
    requires p.category == "healthy" && p.severity_level == "Low" && p.visual_symptoms == []
    ensures CategoryIndicator(p.category) == Positive
    ensures SeverityTier(p.severity_level) == Low
    ensures forall s :: s in AdvisorySections(p) ==> s.title != "Visual Symptoms"
  {
    assert ToLower("Low") == "low";
    AdvisorySectionsInOrder(p);
  }

  /** An unrecognised severity such as `EXTREME` falls back to the neutral tier. */
  lemma UnknownSeverityScenario()
    ensures SeverityTier("EXTREME") == Neutral
  {
  }

  // ---------------------------------------------------------------------
  // The upload panel

  class UploadPanel {
    var selectedFile: Option<Api.File>
    /** The object URL of the preview image. */
    var preview: Option<string>
    var loading: bool
    var error: string
    var result: Option<Api.Prediction>

    /** Initial state: nothing selected, nothing loading, no error, no result. */
    constructor ()
      ensures selectedFile == None && preview == None && !loading && error == "" && result == None
    {
      selectedFile := None;
      preview := None;
      loading := false;
      error := "";
      result := None;
    }

    /** `disabled={!selectedFile || loading}` on the Analyze button, negated. */
    predicate AnalyzeEnabled()
      reads this
    {
      selectedFile.Some? && !loading
    }

    /** The Reset button exists only when a file or a result is present. */
    predicate ResetShown()
      reads this
    {
      selectedFile.Some? || result.Some?
    }

    /** The Reset button is shown and not disabled by `loading`. */
    predicate ResetEnabled()
      reads this
    {
      ResetShown() && !loading
    }

    /** The error banner is rendered only for a non-empty message. */
    predicate ErrorShown()
      reads this
    {
      error != ""
    }

    /** `handleFileChange`: `files` is the input's `FileList` (`null` as
        `None`), `objectUrl` what `URL.createObjectURL` returns for the
        first file. A change with no file changes nothing. */
    method HandleFileChange(files: Option<seq<Api.File>>, objectUrl: string)
      modifies this
      ensures files.Some? && |files.value| > 0 ==>
        selectedFile == Some(files.value[0]) && preview == Some(objectUrl) &&
        result == None && error == "" && loading == old(loading)
      ensures !(files.Some? && |files.value| > 0) ==>
        selectedFile == old(selectedFile) && preview == old(preview) &&
        result == old(result) && error == old(error) && loading == old(loading)
    {
      if files.Some? && |files.value| > 0 {
        var file := files.value[0];
        selectedFile := Some(file);
        preview := Some(objectUrl);
        result := None;
        error := "";
      }
    }

    /** The synchronous part of `handleUpload`, up to the `await`. The
        Analyze button is disabled while loading, so this is never called
        then. Without a selected file it returns at once. */
    method UploadStart() returns (started: bool)
      requires !loading
      modifies this
      ensures started <==> old(selectedFile).Some?
      ensures started ==> loading && error == ""
      ensures !started ==> !loading && error == old(error)
      ensures selectedFile == old(selectedFile) && preview == old(preview) && result == old(result)
      ensures !AnalyzeEnabled()
      ensures started ==> !ResetEnabled()
      ensures !started ==> ResetEnabled() == old(ResetEnabled())
    {
      if selectedFile.None? {
        return false;
      }
      loading := true;
      error := "";
      started := true;
    }

    /** The resolved `await`, then `finally`. */
    method UploadSucceed(prediction: Api.Prediction)
      modifies this
      ensures result == Some(prediction) && !loading
      ensures selectedFile == old(selectedFile) && preview == old(preview) && error == old(error)
    {
      result := Some(prediction);
      loading := false;
    }

    /** The `catch`, then `finally`: any prior result is kept. */
    method UploadFail(err: Caught)
      modifies this
      ensures error == CaughtMessage(err) && !loading
      ensures selectedFile == old(selectedFile) && preview == old(preview) && result == old(result)
    {
      error := CaughtMessage(err);
      loading := false;
    }

    /** `handleUpload` run to completion: start, `api.predict`, then settle.
        The token is the one in storage when the request is made. */
    method HandleUpload(storage: LocalStorage, fetch: Api.Request -> Api.Reply<Api.Prediction>)
      requires !loading
      modifies this
      ensures !loading
      ensures selectedFile == old(selectedFile) && preview == old(preview)
      ensures old(selectedFile).None? ==> result == old(result) && error == old(error)
      ensures old(selectedFile).Some? ==>
        var outcome := Api.PredictResult(storage.Get(TokenKey), old(selectedFile).value, fetch);
        match outcome
        case Success(prediction) => result == Some(prediction) && error == ""
        case Failure(message) => result == old(result) && error == message
    {
      var started := UploadStart();
      if !started {
        return;
      }
      var outcome := Api.Predict(storage, selectedFile.value, fetch);
      match outcome
      case Success(prediction) =>
        UploadSucceed(prediction);
      case Failure(message) =>
        UploadFail(ErrorInstance(message));
    }

    /** `handleReset`, reachable only through the Reset button. Clearing the
        DOM file input is left out. */
    method HandleReset()
      requires ResetEnabled()
      modifies this
      ensures selectedFile == None && preview == None && result == None && error == ""
      ensures loading == old(loading)
      ensures !ResetShown() && !AnalyzeEnabled() && !ErrorShown()
    {
      selectedFile := None;
      preview := None;
      result := None;
      error := "";
    }
  }
}
