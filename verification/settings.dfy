/**
 * The request settings, the editable form that mirrors them, and the two
 * form handlers of the word-request component: editing one field, and
 * submitting the form, which normalises the draft into settings and writes
 * the normalised values back into the form.
 */
module Settings {
  import opened JsValues

  /** The settings a fetch cycle is driven by (`ApiSettings`). */
  datatype ApiSettings = ApiSettings(number: Num, length: Num, lang: string)

  /** The raw, unvalidated text of the three form controls (`FormValues`). */
  datatype FormValues = FormValues(number: string, length: string, lang: string)

  /** The `name` of a form control. */
  datatype Field = NumberField | LengthField | LangField

  /**
   * JavaScript's `Number(string)` and `Number#toString`, left abstract:
   * the model never parses or prints a float itself.
   */
  datatype NumberText = NumberText(parse: string -> Num, show: Num -> string)

  const DefaultNumber: real := 10.0
  const DefaultLength: real := 6.0
  const DefaultLang: string := "pt-br"

  const MinNumber: real := 1.0
  const MaxNumber: real := 10.0
  const MinLength: real := 3.0
  const MaxLength: real := 10.0

  /** `DEFAULT_SETTINGS`. */
  const Defaults: ApiSettings := ApiSettings(Finite(DefaultNumber), Finite(DefaultLength), DefaultLang)

  /** Settings that normalisation can produce: both numbers finite and in range, a language present. */
  predicate Valid(s: ApiSettings) {
    && s.number.Finite? && MinNumber <= s.number.value <= MaxNumber
    && s.length.Finite? && MinLength <= s.length.value <= MaxLength
    && s.lang != ""
  }

  /** The form shows exactly the given settings, as `toString` prints them. */
  predicate Mirrors(t: NumberText, form: FormValues, s: ApiSettings) {
    && form.number == t.show(s.number)
    && form.length == t.show(s.length)
    && form.lang == s.lang
  }

  /** The form's initial values: the defaults, printed. */
  function InitialForm(t: NumberText): (form: FormValues)
    ensures Mirrors(t, form, Defaults)
  {
    FormValues(t.show(Defaults.number), t.show(Defaults.length), Defaults.lang)
  }

  /** The value of one named form control. */
  function FieldValue(form: FormValues, f: Field): string {
    match f
    case NumberField => form.number
    case LengthField => form.length
    case LangField => form.lang
  }

  /**
   * `handleInputChange`: `{ ...prev, [name]: value }` replaces the named
   * control's text and keeps the other two.
   */
  function HandleInputChange(form: FormValues, f: Field, value: string): (r: FormValues)
    ensures FieldValue(r, f) == value
    ensures forall g :: g != f ==> FieldValue(r, g) == FieldValue(form, g)
  {
    match f
    case NumberField => form.(number := value)
    case LengthField => form.(length := value)
    case LangField => form.(lang := value)
  }

  /**
   * The count: `Number(text) || 10`, then `Math.min(Math.max(_, 1), 10)`.
   * A falsy parse (NaN or zero) becomes the default 10, not the lower bound.
   */
  function NormalizeNumber(n: Num): (r: Num)
    ensures r.Finite? && MinNumber <= r.value <= MaxNumber
    ensures !Truthy(n) ==> r == Finite(DefaultNumber)
    ensures n.Finite? && MinNumber <= n.value <= MaxNumber ==> r == n
    ensures Truthy(n) && (n == NegInf || (n.Finite? && n.value < MinNumber)) ==> r == Finite(MinNumber)
    ensures n == PosInf || (n.Finite? && MaxNumber < n.value) ==> r == Finite(MaxNumber)
  {
    Clamp(Or(n, Finite(DefaultNumber)), MinNumber, MaxNumber)
  }

  /**
   * The word length: `Number(text) || 6`, then `Math.min(Math.max(_, 3), 10)`.
   * A falsy parse (NaN or zero) becomes the default 6, not the lower bound.
   */
  function NormalizeLength(n: Num): (r: Num)
    ensures r.Finite? && MinLength <= r.value <= MaxLength
    ensures !Truthy(n) ==> r == Finite(DefaultLength)
    ensures n.Finite? && MinLength <= n.value <= MaxLength ==> r == n
    ensures Truthy(n) && (n == NegInf || (n.Finite? && n.value < MinLength)) ==> r == Finite(MinLength)
    ensures n == PosInf || (n.Finite? && MaxLength < n.value) ==> r == Finite(MaxLength)
  {
    Clamp(Or(n, Finite(DefaultLength)), MinLength, MaxLength)
  }

  /**
   * The language: `lang || "pt-br"`. A non-empty language is kept verbatim,
   * whether or not it is one of the four offered options.
   */
  function NormalizeLang(lang: string): (r: string)
    ensures r != ""
    ensures lang != "" ==> r == lang
    ensures lang == "" ==> r == DefaultLang
  {
    OrString(lang, DefaultLang)
  }

  /** The `normalized` settings `handleSubmit` derives from the draft form. */
  function Normalize(t: NumberText, form: FormValues): (s: ApiSettings)
    ensures Valid(s)
  {
    ApiSettings(NormalizeNumber(t.parse(form.number)), NormalizeLength(t.parse(form.length)), NormalizeLang(form.lang))
  }

  /** What a submit produces: the rewritten form and the new settings. */
  datatype Submitted = Submitted(form: FormValues, settings: ApiSettings)

  /**
   * `handleSubmit`: normalise the draft, write the normalised values back
   * into the form, and hand the same values on as the new settings.
   */
  function HandleSubmit(t: NumberText, form: FormValues): (r: Submitted)
    ensures Valid(r.settings)
    ensures Mirrors(t, r.form, r.settings)
    ensures r.settings == Normalize(t, form)
  {
    var s := Normalize(t, form);
    Submitted(FormValues(t.show(s.number), t.show(s.length), s.lang), s)
  }

  /**
   * Normalisation is the identity on valid settings read back from a form
   * that mirrors them, provided `Number(x.toString())` gives back `x` for
   * the two numbers involved (as it does for every finite double).
   */
  lemma NormalizeFixesMirror(t: NumberText, form: FormValues, s: ApiSettings)
    requires Valid(s) && Mirrors(t, form, s)
    requires t.parse(t.show(s.number)) == s.number
    requires t.parse(t.show(s.length)) == s.length
    ensures Normalize(t, form) == s
  {
  }

  /**
   * Submitting twice with no edit in between gives the same form and the
   * same settings the first submit gave.
   */
  lemma SubmitIdempotent(t: NumberText, form: FormValues)
    requires t.parse(t.show(Normalize(t, form).number)) == Normalize(t, form).number
    requires t.parse(t.show(Normalize(t, form).length)) == Normalize(t, form).length
    ensures HandleSubmit(t, HandleSubmit(t, form).form) == HandleSubmit(t, form)
  {
    NormalizeFixesMirror(t, HandleSubmit(t, form).form, Normalize(t, form));
  }

  /**
   * Text that does not parse (NaN) and an empty language give exactly the
   * defaults.
   */
  lemma UnparsableGivesDefaults(t: NumberText, form: FormValues)
    requires t.parse(form.number) == NaN && t.parse(form.length) == NaN && form.lang == ""
    ensures Normalize(t, form) == Defaults
  {
  }

  /**
   * A zero count and a zero length are falsy, so they fall back to the
   * defaults 10 and 6 rather than saturating at the lower bounds 1 and 3.
   */
  lemma ZeroFallsBackToDefault(t: NumberText, form: FormValues)
    requires t.parse(form.number) == Finite(0.0) && t.parse(form.length) == Finite(0.0)
    ensures Normalize(t, form).number == Finite(DefaultNumber)
    ensures Normalize(t, form).length == Finite(DefaultLength)
  {
  }

  /**
   * The two numbers are normalised independently: a zero count takes its
   * default while an over-long length saturates at the upper bound.
   */
  lemma ZeroCountLongLength(t: NumberText, form: FormValues)
    requires t.parse(form.number) == Finite(0.0) && t.parse(form.length) == Finite(20.0)
    requires form.lang == "en"
    ensures Normalize(t, form) == ApiSettings(Finite(10.0), Finite(10.0), "en")
  {
  }
}
