/**
 * The checks an uploaded audio file goes through before transcription:
 * MIME type against an allow-list, size against a ceiling, duration within
 * a window, in that order, plus the `m:ss` duration formatter.
 *
 * The duration is read by the browser's audio element; here its outcome is
 * a parameter (`DurationProbe`), and `None` stands for a probe that threw.
 */
module AudioValidation {
  import opened Optional
  import opened Seqs
  import opened Decimal
  import JsMath

  /** `VALIDATION_CONFIG.allowedTypes`. */
  const ALLOWED_TYPES: seq<string> :=
    ["audio/mpeg", "audio/mp3", "audio/wav", "audio/mp4", "audio/m4a", "audio/x-m4a", "audio/ogg", "audio/webm"]
  /** `VALIDATION_CONFIG.maxSize`: 50 MiB. */
  const MAX_SIZE: int := 50 * 1024 * 1024
  const MIB: int := 1024 * 1024
  /** `VALIDATION_CONFIG.minDuration` and `maxDuration`, in seconds. */
  const MIN_DURATION: real := 1.0
  const MAX_DURATION: real := 600.0

  /** The fields of the browser `File` the checks read. */
  datatype AudioFile = AudioFile(name: string, size: int, mimeType: string)

  /** A JavaScript number that is either a real value or `NaN`. */
  datatype Measure = Number(value: real) | NaN

  /** What the audio element reported: `loadedmetadata` with its duration, or `error`. */
  datatype DurationProbe = Loaded(duration: Measure) | LoadError

  /** Why a file was refused; each reason carries the number its message shows. */
  datatype Rejection =
    | NoFile
    | UnsupportedFormat
    | TooLarge(sizeMb: int)
    | Unreadable
    | TooShort(seconds: int)
    | TooLong(minutes: int)
    | Corrupt
    | Failed

  /** `{ isValid: true }` or `{ isValid: false, error }` of the single checks. */
  datatype Check = Pass | Fail(reason: Rejection)

  /** The result of the duration check: the duration, or a refusal. */
  datatype DurationCheck = Measured(duration: real) | DurationFail(reason: Rejection)

  /** The result of `validateAudioFile`. */
  datatype Verdict =
    | Valid(duration: real, size: int, mimeType: string, name: string)
    | Invalid(error: string)

  /**
   * `allowedTypes.map(type => type.split('/')[1]).join(', ')`: the part after
   * the slash of each allowed type, in allow-list order.
   */
  const FORMAT_LIST: string := "mpeg, mp3, wav, mp4, m4a, x-m4a, ogg, webm"

  /** The French message shown for each refusal. */
  function Message(reason: Rejection): (m: string)
    ensures m != ""
  {
    match reason
    case NoFile => "Aucun fichier sélectionné"
    case UnsupportedFormat => "Format non supporté. Formats acceptés: " + FORMAT_LIST
    case TooLarge(mb) =>
      "Fichier trop volumineux (" + IntToString(mb) + "MB). Taille maximum: " + IntToString(MAX_SIZE / MIB) + "MB"
    case Unreadable => "Impossible de lire la durée du fichier audio"
    case TooShort(s) => "Fichier audio trop court (" + IntToString(s) + "s). Duration minimum: 1s"
    case TooLong(min) => "Fichier audio trop long (" + IntToString(min) + "min). Durée maximum: 10min"
    case Corrupt => "Fichier audio corrompu ou non lisible"
    case Failed => "Erreur lors de la validation du fichier"
  }

  /** `validateFileType(file)`: a missing file is refused; otherwise the type must be on the allow-list. */
  function ValidateFileType(file: Option<AudioFile>): (r: Check)
    ensures r == Pass <==> file.Some? && file.value.mimeType in ALLOWED_TYPES
    ensures file.None? ==> r == Fail(NoFile)
    ensures file.Some? && file.value.mimeType !in ALLOWED_TYPES ==> r == Fail(UnsupportedFormat)
  {
    if file.None? then Fail(NoFile)
    else if !Includes(ALLOWED_TYPES, file.value.mimeType) then Fail(UnsupportedFormat)
    else Pass
  }

  /**
   * `validateFileSize(file)`: refused exactly when larger than 50 MiB (the
   * ceiling itself passes); the message shows the size rounded to whole MiB.
   */
  function ValidateFileSize(file: AudioFile): (r: Check)
    ensures r == Pass <==> file.size <= MAX_SIZE
    ensures r.Fail? ==> r.reason.TooLarge? && r.reason.sizeMb >= 50
    ensures r.Fail? ==> 2 * MIB * r.reason.sizeMb - MIB <= 2 * file.size < 2 * MIB * r.reason.sizeMb + MIB
  {
    if file.size > MAX_SIZE then
      var mb := JsMath.RoundedQuotient(file.size, MIB);
      assert 2 * MIB * mb + MIB > 2 * MAX_SIZE;
      Fail(TooLarge(mb))
    else Pass
  }

  /**
   * The `loadedmetadata`/`error` handlers of `validateAudioDuration`: an
   * unreadable (`NaN`) duration, one under 1 s or over 600 s is refused (the
   * message shows the duration rounded to whole seconds, or to whole minutes);
   * a load error means a corrupt file.
   */
  function ValidateAudioDuration(probe: DurationProbe): (r: DurationCheck)
    ensures r.Measured? <==> probe.Loaded? && probe.duration.Number? && MIN_DURATION <= probe.duration.value <= MAX_DURATION
    ensures r.Measured? ==> r.duration == probe.duration.value
    ensures probe == LoadError ==> r == DurationFail(Corrupt)
    ensures probe == Loaded(NaN) ==> r == DurationFail(Unreadable)
    ensures probe.Loaded? && probe.duration.Number? && probe.duration.value < MIN_DURATION ==>
      && r.DurationFail? && r.reason.TooShort? && r.reason.seconds <= 1
      && r.reason.seconds as real - 0.5 <= probe.duration.value < r.reason.seconds as real + 0.5
    ensures probe.Loaded? && probe.duration.Number? && probe.duration.value > MAX_DURATION ==>
      && r.DurationFail? && r.reason.TooLong? && r.reason.minutes >= 10
      && r.reason.minutes as real - 0.5 <= probe.duration.value / 60.0 < r.reason.minutes as real + 0.5
  {
    match probe
    case LoadError => DurationFail(Corrupt)
    case Loaded(NaN) => DurationFail(Unreadable)
    case Loaded(Number(d)) =>
      if d < MIN_DURATION then DurationFail(TooShort(JsMath.Round(d)))
      else if d > MAX_DURATION then DurationFail(TooLong(JsMath.Round(d / 60.0)))
      else Measured(d)
  }

  /**
   * What `validateAudioFile` resolves to: the type check, then the size
   * check, then the duration probe; the first refusal wins, and a probe that
   * threw gives the generic validation error.
   */
  function Validation(file: Option<AudioFile>, probe: Option<DurationProbe>): Verdict {
    match ValidateFileType(file)
    case Fail(reason) => Invalid(Message(reason))
    case Pass =>
      match ValidateFileSize(file.value)
      case Fail(reason) => Invalid(Message(reason))
      case Pass =>
        if probe.None? then Invalid(Message(Failed))
        else
          match ValidateAudioDuration(probe.value)
          case DurationFail(reason) => Invalid(Message(reason))
          case Measured(d) => Valid(d, file.value.size, file.value.mimeType, file.value.name)
  }

  /**
   * The checks run in order: a type refusal is reported whatever the size
   * and the probe; a size refusal whatever the probe; only a file passing
   * both is probed.
   */
  lemma ValidationOrder(file: Option<AudioFile>, probe: Option<DurationProbe>, other: Option<DurationProbe>)
    ensures ValidateFileType(file).Fail? ==>
      Validation(file, probe) == Invalid(Message(ValidateFileType(file).reason)) == Validation(file, other)
    ensures ValidateFileType(file) == Pass && ValidateFileSize(file.value).Fail? ==>
      Validation(file, probe) == Invalid(Message(ValidateFileSize(file.value).reason)) == Validation(file, other)
    ensures ValidateFileType(file) == Pass && ValidateFileSize(file.value) == Pass && probe.Some? ==>
      match ValidateAudioDuration(probe.value)
      case DurationFail(reason) => Validation(file, probe) == Invalid(Message(reason))
      case Measured(_) => Validation(file, probe).Valid?
  {
  }

  /**
   * A file is accepted exactly when its type is allowed, its size is within
   * the ceiling and its duration was read within the window; an accepted
   * file's size, type and name come back unchanged with the duration read.
   */
  lemma ValidationAcceptance(file: Option<AudioFile>, probe: Option<DurationProbe>)
    ensures Validation(file, probe).Valid? <==>
      && file.Some? && file.value.mimeType in ALLOWED_TYPES && file.value.size <= MAX_SIZE
      && probe.Some? && probe.value.Loaded? && probe.value.duration.Number?
      && MIN_DURATION <= probe.value.duration.value <= MAX_DURATION
    ensures Validation(file, probe).Valid? ==>
      Validation(file, probe) ==
        Valid(probe.value.duration.value, file.value.size, file.value.mimeType, file.value.name)
  {
  }

  /** `Math.floor(seconds % 60)`, the seconds part of the formatted duration. */
  function SecondsPart(s: real): int {
    JsMath.Rem(s, 60.0).Floor
  }

  /** `getDurationFormatted(seconds)`: "0:00" for `NaN`, otherwise minutes, a colon and two-digit seconds. */
  function DurationFormatted(seconds: Measure): string {
    match seconds
    case NaN => "0:00"
    case Number(s) =>
      IntToString(JsMath.Floor(s / 60.0)) + ":" + PadStart(IntToString(SecondsPart(s)), 2, '0')
  }

  /** The two-digit text of a seconds count below 60. */
  lemma TwoDigits(ss: nat)
    requires ss < 60
    ensures |PadStart(NatToString(ss), 2, '0')| == 2
    ensures forall i :: 0 <= i < 2 ==> IsDigit(PadStart(NatToString(ss), 2, '0')[i])
    ensures DigitsValue(PadStart(NatToString(ss), 2, '0')) == ss
  {
    var t := NatToString(ss);
    NatToStringRoundTrip(ss);
    var p := PadStart(t, 2, '0');
    if ss < 10 {
      assert p == ['0'] + t;
      assert p[..1] == ['0'];
      assert DigitsValue(p[..1]) == 0;
    } else {
      assert |t| == 2 by {
        assert t == NatToString(ss / 10) + [DigitChar(ss % 10)];
      }
      assert p == t;
    }
  }

  /**
   * For a non-negative duration the text is `m:ss` where `m` is the whole
   * minutes, `ss` is two digits below 60, and `60*m + ss` is the whole
   * seconds.
   */
  lemma DurationFormattedSpec(s: real)
    requires s >= 0.0
    ensures var m := JsMath.Floor(s / 60.0);
            var ss := SecondsPart(s);
      && m >= 0 && 0 <= ss < 60
      && 60 * m + ss == s.Floor
      && DurationFormatted(Number(s)) == NatToString(m) + ":" + PadStart(NatToString(ss), 2, '0')
      && |PadStart(NatToString(ss), 2, '0')| == 2
      && DigitsValue(PadStart(NatToString(ss), 2, '0')) == ss
  {
    var m := JsMath.Floor(s / 60.0);
    var r := JsMath.Rem(s, 60.0);
    assert JsMath.Trunc(s / 60.0) == m;
    assert r == s - 60.0 * (m as real);
    ShiftFloor(r, 60 * m);
    TwoDigits(SecondsPart(s));
  }

  /** Adding a whole number commutes with `Floor`. */
  lemma ShiftFloor(x: real, k: int)
    ensures (x + k as real).Floor == x.Floor + k
  {
  }

  /** The validator's state: the shown error text and the in-progress flag. */
  class AudioValidator {
    var validationError: string
    var isValidating: bool

    constructor ()
      ensures validationError == "" && !isValidating
    {
      validationError := "";
      isValidating := false;
    }

    /**
     * `validateAudioFile(file)`: clears the error and raises the flag, runs
     * the checks in order stopping at the first refusal, records its message,
     * and lowers the flag on every path.
     */
    method ValidateAudioFile(file: Option<AudioFile>, probe: Option<DurationProbe>) returns (r: Verdict)
      modifies this
      ensures r == Validation(file, probe)
      ensures validationError == (if r.Invalid? then r.error else "")
      ensures validationError == "" <==> r.Valid?
      ensures !isValidating
    {
      validationError := "";
      isValidating := true;
      var typeCheck := ValidateFileType(file);
      if typeCheck.Fail? {
        validationError := Message(typeCheck.reason);
        r := Invalid(validationError);
      } else {
        var sizeCheck := ValidateFileSize(file.value);
        if sizeCheck.Fail? {
          validationError := Message(sizeCheck.reason);
          r := Invalid(validationError);
        } else if probe.None? {
          validationError := Message(Failed);
          r := Invalid(validationError);
        } else {
          var durationCheck := ValidateAudioDuration(probe.value);
          if durationCheck.DurationFail? {
            validationError := Message(durationCheck.reason);
            r := Invalid(validationError);
          } else {
            r := Valid(durationCheck.duration, file.value.size, file.value.mimeType, file.value.name);
          }
        }
      }
      isValidating := false;
    }

    /** `clearValidationError()`. */
    method ClearValidationError()
      modifies this
      ensures validationError == "" && isValidating == old(isValidating)
    {
      validationError := "";
    }
  }

  /** Every refusal carries a message, so the shown error is empty exactly when the file was accepted. */
  lemma RefusalHasMessage(file: Option<AudioFile>, probe: Option<DurationProbe>)
    ensures var v := Validation(file, probe); v.Invalid? ==> v.error != ""
  {
  }
}
