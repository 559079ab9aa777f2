/**
 * The ad form component (src/components/AdForm.tsx): the create/edit form's
 * state (`formData`, `errors`, `loading`), its validator, and the two event
 * handlers that change that state.
 *
 * What lies outside the component enters as inputs: the URL parser behind
 * `validateUrl` is the function `parsesAsUrl`, and the outcome of the
 * `onSubmit` prop is a `SubmitOutcome` argument. Calls to `onSubmit` and to
 * `router.push` are recorded in the log fields `submissions` and
 * `navigations`.
 */
module AdForm {
  import opened Wrappers
  import opened AdRecord
  import opened JsString

  const TitleRequired := "Title is required"
  const TitleTooShort := "Title must be at least 3 characters"
  const DescriptionRequired := "Description is required"
  const DescriptionTooShort := "Description must be at least 10 characters"
  const UrlRequired := "Destination URL is required"
  const UrlInvalid := "Please enter a valid URL (including http:// or https://)"
  const SubmitFailurePrefix := "Failed to save ad: "
  const UnknownError := "Unknown error occurred"
  const DashboardRoute := "/dashboard"

  const MinTitleLength := 3
  const MinDescriptionLength := 10

  /** The editable part of an ad: `Omit<Ad, 'id' | 'user_id' | 'created_at'>`. */
  datatype FormData = FormData(title: string, description: string, destinationUrl: string, status: Status)

  /** The four inputs of the form. */
  datatype Field = TitleField | DescriptionField | DestinationUrlField | StatusField

  /** The property name of a field in `formData` and in the error map. */
  function Key(field: Field): string
  {
    match field
    case TitleField => "title"
    case DescriptionField => "description"
    case DestinationUrlField => "destination_url"
    case StatusField => "status"
  }

  /** The value the form holds for `field`, as its input element shows it. */
  function FieldValue(d: FormData, field: Field): string
  {
    match field
    case TitleField => d.title
    case DescriptionField => d.description
    case DestinationUrlField => d.destinationUrl
    case StatusField => StatusName(d.status)
  }

  /**
   * `{ ...prev, [field]: value }`. The status `<select>` only offers
   * "active" and "inactive", so a status change carries one of those.
   */
  function WithField(d: FormData, field: Field, value: string): (r: FormData)
    requires field == StatusField ==> ParseStatus(value).Some?
    ensures FieldValue(r, field) == value
    ensures forall g :: g != field ==> FieldValue(r, g) == FieldValue(d, g)
  {
    match field
    case TitleField => d.(title := value)
    case DescriptionField => d.(description := value)
    case DestinationUrlField => d.(destinationUrl := value)
    case StatusField => d.(status := ParseStatus(value).value)
  }

  /** JavaScript's `v || fallback` on an optional string: an absent or empty value falls back. */
  function OrElse(v: Option<string>, fallback: string): (r: string)
    ensures v.Some? && v.value != "" ==> r == v.value
    ensures v.None? || v.value == "" ==> r == fallback
    ensures fallback == "" ==> r == v.GetOr("")
  {
    if v.Some? && v.value != "" then v.value else fallback
  }

  /** The initial `formData`: each field copied from `initialData` when truthy, else `''`; status defaults to active. */
  function InitialFormData(initialData: Option<PartialAd>): (r: FormData)
    ensures initialData.None? ==> r == FormData("", "", "", Active)
    ensures initialData.Some? ==> r.status == initialData.value.status.GetOr(Active)
    ensures initialData.Some? ==>
      && r.title == initialData.value.title.GetOr("")
      && r.description == initialData.value.description.GetOr("")
      && r.destinationUrl == initialData.value.destinationUrl.GetOr("")
  {
    match initialData
    case None => FormData("", "", "", Active)
    case Some(p) =>
      FormData(OrElse(p.title, ""), OrElse(p.description, ""), OrElse(p.destinationUrl, ""),
               p.status.GetOr(Active))
  }

  /** Editing a stored ad pre-fills the form with exactly that ad's editable fields. */
  lemma PrefillFromStoredAd(ad: Ad)
    ensures InitialFormData(Some(AsPartial(ad)))
         == FormData(ad.title, ad.description, ad.destinationUrl, ad.status)
  {
  }

  // ---------------------------------------------------------------- validation

  const TitleKey := "title"
  const DescriptionKey := "description"
  const UrlKey := "destination_url"
  const SubmitKey := "submit"

  /** The four keys the error map can hold are pairwise distinct. */
  lemma ErrorKeysDistinct()
    ensures TitleKey != DescriptionKey && TitleKey != UrlKey && DescriptionKey != UrlKey
    ensures SubmitKey !in {TitleKey, DescriptionKey, UrlKey}
  {
  }

  /** The title rule: required, then at least 3 code units once trimmed. */
  function TitleError(title: string): (e: Option<string>)
    ensures e.None? <==> Utf16Length(Trim(title)) >= MinTitleLength
    ensures Trim(title) == [] ==> e == Some(TitleRequired)
    ensures 0 < Utf16Length(Trim(title)) < MinTitleLength ==> e == Some(TitleTooShort)
  {
    var t := Trim(title);
    if t == [] then Some(TitleRequired)
    else if Utf16Length(t) < MinTitleLength then Some(TitleTooShort)
    else None
  }

  /** The description rule: required, then at least 10 code units once trimmed. */
  function DescriptionError(description: string): (e: Option<string>)
    ensures e.None? <==> Utf16Length(Trim(description)) >= MinDescriptionLength
    ensures Trim(description) == [] ==> e == Some(DescriptionRequired)
    ensures 0 < Utf16Length(Trim(description)) < MinDescriptionLength ==> e == Some(DescriptionTooShort)
  {
    var t := Trim(description);
    if t == [] then Some(DescriptionRequired)
    else if Utf16Length(t) < MinDescriptionLength then Some(DescriptionTooShort)
    else None
  }

  /** The URL rule: the blank test looks at the trimmed URL, but the parser is given the URL as typed. */
  function UrlError(url: string, parsesAsUrl: string -> bool): (e: Option<string>)
    ensures e.None? <==> !AllWhitespace(url) && parsesAsUrl(url)
    ensures AllWhitespace(url) ==> e == Some(UrlRequired)
    ensures !AllWhitespace(url) && !parsesAsUrl(url) ==> e == Some(UrlInvalid)
  {
    TrimEmptyIff(url);
    if Trim(url) == [] then Some(UrlRequired)
    else if !parsesAsUrl(url) then Some(UrlInvalid)
    else None
  }

  /** `newErrors[key] = message` when there is a message. */
  function Put(errs: map<string, string>, key: string, e: Option<string>): map<string, string>
  {
    if e.Some? then errs[key := e.value] else errs
  }

  /** Whether `errs` holds exactly the message `e` under `key` (no entry when there is none). */
  predicate Holds(errs: map<string, string>, key: string, e: Option<string>)
  {
    if e.Some? then key in errs && errs[key] == e.value else key !in errs
  }

  /** `newErrors` as `validate` builds it from `formData`: one entry per failing rule. */
  function ValidationErrors(d: FormData, parsesAsUrl: string -> bool): (errs: map<string, string>)
    ensures Holds(errs, TitleKey, TitleError(d.title))
    ensures Holds(errs, DescriptionKey, DescriptionError(d.description))
    ensures Holds(errs, UrlKey, UrlError(d.destinationUrl, parsesAsUrl))
  {
    ErrorMap(TitleError(d.title), DescriptionError(d.description), UrlError(d.destinationUrl, parsesAsUrl))
  }

  /**
   * Validation only ever reports on the three text fields, and every message
   * it reports is non-empty, so the form displays each of them.
   */
  lemma ValidationErrorsShape(d: FormData, parsesAsUrl: string -> bool)
    ensures ValidationErrors(d, parsesAsUrl).Keys <= {TitleKey, DescriptionKey, UrlKey}
    ensures forall k :: k in ValidationErrors(d, parsesAsUrl) ==> ValidationErrors(d, parsesAsUrl)[k] != ""
  {
  }

  /** The error map assembled from the outcome of each field's rule, in the source's order. */
  function ErrorMap(title: Option<string>, description: Option<string>, url: Option<string>): (errs: map<string, string>)
    requires title != Some("") && description != Some("") && url != Some("")
    ensures errs.Keys <= {TitleKey, DescriptionKey, UrlKey}
    ensures forall k :: k in errs ==> errs[k] != ""
    ensures Holds(errs, TitleKey, title)
    ensures Holds(errs, DescriptionKey, description)
    ensures Holds(errs, UrlKey, url)
  {
    ErrorKeysDistinct();
    var e1 := Put(map[], TitleKey, title);
    var e2 := Put(e1, DescriptionKey, description);
    Put(e2, UrlKey, url)
  }

  /**
   * An independent statement of what a savable ad is: a title of at least 3
   * and a description of at least 10 UTF-16 code units once trimmed, and a
   * destination URL that is not blank and parses.
   */
  predicate Submittable(d: FormData, parsesAsUrl: string -> bool)
  {
    && Utf16Length(Trim(d.title)) >= MinTitleLength
    && Utf16Length(Trim(d.description)) >= MinDescriptionLength
    && !AllWhitespace(d.destinationUrl)
    && parsesAsUrl(d.destinationUrl)
  }

  /** `validate()` returns true exactly for the submittable forms. */
  lemma ValidationPassesIff(d: FormData, parsesAsUrl: string -> bool)
    ensures ValidationErrors(d, parsesAsUrl) == map[] <==> Submittable(d, parsesAsUrl)
  {
  }

  /** Whitespace typed around the title never changes the verdict nor any message. */
  lemma TitlePaddingDoesNotChangeValidation(d: FormData, w1: string, w2: string, parsesAsUrl: string -> bool)
    requires AllWhitespace(w1) && AllWhitespace(w2)
    ensures ValidationErrors(d.(title := w1 + d.title + w2), parsesAsUrl) == ValidationErrors(d, parsesAsUrl)
  {
    PaddingDoesNotChangeTrim(w1, d.title, w2);
    assert TitleError(w1 + d.title + w2) == TitleError(d.title);
  }

  /** Whitespace typed around the description never changes the verdict nor any message. */
  lemma DescriptionPaddingDoesNotChangeValidation(d: FormData, w1: string, w2: string, parsesAsUrl: string -> bool)
    requires AllWhitespace(w1) && AllWhitespace(w2)
    ensures ValidationErrors(d.(description := w1 + d.description + w2), parsesAsUrl)
         == ValidationErrors(d, parsesAsUrl)
  {
    PaddingDoesNotChangeTrim(w1, d.description, w2);
    assert DescriptionError(w1 + d.description + w2) == DescriptionError(d.description);
  }

  // ---------------------------------------------------------------- error map

  /** The fields whose error the form displays: those with a truthy message. */
  function Shown(errs: map<string, string>): set<string>
  {
    set k | k in errs && errs[k] != ""
  }

  /** `if (errors[field]) setErrors(prev => ({ ...prev, [field]: '' }))`. */
  function ClearError(errs: map<string, string>, key: string): (r: map<string, string>)
    ensures r.Keys == errs.Keys
    ensures forall k :: k in errs && k != key ==> r[k] == errs[k]
    ensures key in r ==> r[key] == ""
  {
    if key in errs && errs[key] != "" then errs[key := ""] else errs
  }

  /** Typing in a field hides that field's error and no other. */
  lemma ClearErrorHidesOnlyThatField(errs: map<string, string>, key: string)
    ensures Shown(ClearError(errs, key)) == Shown(errs) - {key}
  {
  }

  /** What the thrown value of a failed `onSubmit` carries: an `Error`'s message, or nothing. */
  datatype SubmitOutcome = Saved | Threw(message: Option<string>)

  /** The `submit` message shown after a failed save. */
  function SubmitFailureMessage(message: Option<string>): (m: string)
    ensures |SubmitFailurePrefix| <= |m| && m[..|SubmitFailurePrefix|] == SubmitFailurePrefix
    ensures m[|SubmitFailurePrefix|..] == message.GetOr(UnknownError)
  {
    SubmitFailurePrefix + message.GetOr(UnknownError)
  }

  // ---------------------------------------------------------------- the component

  class AdFormComponent {
    var formData: FormData
    var errors: map<string, string>
    var loading: bool
    /** Every call made to the `onSubmit` prop, with the data it was given. */
    var submissions: seq<FormData>
    /** Every route given to `router.push`. */
    var navigations: seq<string>
    /** `validateUrl`: whether `new URL(url)` succeeds on `url`. */
    const parsesAsUrl: string -> bool

    /** Mounting the component: the initial `useState` values. */
    constructor (initialData: Option<PartialAd>, parsesAsUrl: string -> bool)
      ensures formData == InitialFormData(initialData)
      ensures errors == map[] && !loading
      ensures submissions == [] && navigations == []
      ensures this.parsesAsUrl == parsesAsUrl
    {
      formData := InitialFormData(initialData);
      errors := map[];
      loading := false;
      submissions := [];
      navigations := [];
      this.parsesAsUrl := parsesAsUrl;
    }

    /** `validate()`: replaces `errors` wholesale and reports whether it came out empty. */
    method Validate() returns (ok: bool)
      modifies this`errors
      ensures errors == ValidationErrors(formData, parsesAsUrl)
      ensures ok <==> errors == map[]
      ensures ok <==> Submittable(formData, parsesAsUrl)
    {
      errors := ValidationErrors(formData, parsesAsUrl);
      ok := |errors| == 0;
      ValidationPassesIff(formData, parsesAsUrl);
    }

    /** `handleChange(field, value)`. */
    method HandleChange(field: Field, value: string)
      requires field == StatusField ==> ParseStatus(value).Some?
      modifies this`formData, this`errors
      ensures formData == WithField(old(formData), field, value)
      ensures errors == ClearError(old(errors), Key(field))
    {
      formData := WithField(formData, field, value);
      if Key(field) in errors && errors[Key(field)] != "" {
        errors := errors[Key(field) := ""];
      }
    }

    /** `handleSubmit`, with `outcome` standing for how the awaited `onSubmit(formData)` ended. */
    method HandleSubmit(outcome: SubmitOutcome)
      modifies this`errors, this`loading, this`submissions, this`navigations
      ensures !Submittable(formData, parsesAsUrl) ==>
        && errors == ValidationErrors(formData, parsesAsUrl)
        && loading == old(loading)
        && submissions == old(submissions)
        && navigations == old(navigations)
      ensures Submittable(formData, parsesAsUrl) ==> SaveCompleted(outcome)
    {
      var ok := Validate();
      if ok {
        Save(outcome);
      }
    }

    /** The state after a save of the current `formData` that ended with `outcome`. */
    twostate predicate SaveCompleted(outcome: SubmitOutcome)
      reads this
    {
      && submissions == old(submissions) + [formData]
      && !loading
      && (outcome.Saved? ==> errors == map[] && navigations == old(navigations) + [DashboardRoute])
      && (outcome.Threw? ==>
            errors == map[SubmitKey := SubmitFailureMessage(outcome.message)]
            && navigations == old(navigations))
    }

    /**
     * The part of `handleSubmit` after validation has passed: raise `loading`,
     * clear `errors`, call `onSubmit` once, navigate on success or record the
     * failure, and lower `loading` in either case.
     */
    method Save(outcome: SubmitOutcome)
      modifies this`errors, this`loading, this`submissions, this`navigations
      ensures SaveCompleted(outcome)
    {
      loading := true;
      errors := map[];
      submissions := submissions + [formData];
      match outcome {
        case Saved =>
          navigations := navigations + [DashboardRoute];
        case Threw(message) =>
          errors := map[SubmitKey := SubmitFailureMessage(message)];
      }
      loading := false;
    }
  }
}
