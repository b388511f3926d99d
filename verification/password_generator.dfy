/**
 * The password generator widget: a random password over letters and,
 * optionally, digits and symbols, or a numeric PIN, built from random
 * bytes; settings persisted under `nexus_password_settings`, and each
 * character coloured by its kind.
 */
module PasswordGenerator {
  import opened Wrappers
  import opened JsText

  datatype PasswordType = Random | Pin

  datatype PasswordSettings = PasswordSettings(
    kind: PasswordType,
    randomLength: nat,
    includeNumbers: bool,
    includeSymbols: bool,
    pinLength: nat)

  const DefaultSettings: PasswordSettings := PasswordSettings(Random, 8, false, false, 6)

  /** The length slider's bounds for each mode. */
  function SliderRange(kind: PasswordType): (nat, nat) {
    match kind
    case Random => (8, 64)
    case Pin => (3, 12)
  }

  predicate OnSlider(kind: PasswordType, length: nat) {
    SliderRange(kind).0 <= length <= SliderRange(kind).1
  }

  /** Both lengths are values their slider can show. */
  predicate OnSliders(s: PasswordSettings) {
    OnSlider(Random, s.randomLength) && OnSlider(Pin, s.pinLength)
  }

  /** The default lengths lie on their sliders. */
  lemma DefaultsOnSliders()
    ensures OnSliders(DefaultSettings)
    ensures DefaultSettings.kind == Random && !DefaultSettings.includeNumbers && !DefaultSettings.includeSymbols
  {
  }

  const Letters: string := "abcdefghijklmnopqrstuvwxyzABCDEFGHIJKLMNOPQRSTUVWXYZ"
  /** Every digit twice, so that digits are drawn more often. */
  const Numbers: string := "01234567890123456789"
  const Symbols: string := "!@#$%&*-_+=?"

  predicate IsLetter(c: char) {
    'a' <= c <= 'z' || 'A' <= c <= 'Z'
  }

  predicate IsDigit(c: char) {
    '0' <= c <= '9'
  }

  /** The three alphabets hold what their names say: letters, every
      digit twice in order, and symbols that are neither. */
  lemma AlphabetsSpec()
    ensures |Letters| == 52 && |Numbers| == 20 && |Symbols| == 12
    ensures forall i :: 0 <= i < |Letters| ==> IsLetter(Letters[i])
    ensures forall i :: 0 <= i < |Numbers| ==> IsDigit(Numbers[i]) && Numbers[i] == DigitChar(i % 10)
    ensures forall i :: 0 <= i < |Symbols| ==> !IsLetter(Symbols[i]) && !IsDigit(Symbols[i])
  {
    LettersSpec();
    NumbersSpec();
    SymbolsSpec();
  }

  lemma LettersSpec()
    ensures |Letters| == 52 && forall i :: 0 <= i < |Letters| ==> IsLetter(Letters[i])
  {
    var lower, upper := Letters[..26], Letters[26..];
    LowerSpec(lower);
    UpperSpec(upper);
    assert Letters == lower + upper;
  }

  lemma LowerSpec(lower: string)
    requires lower == "abcdefghijklmnopqrstuvwxyz"
    ensures forall i :: 0 <= i < |lower| ==> IsLetter(lower[i])
  {
  }

  lemma UpperSpec(upper: string)
    requires upper == "ABCDEFGHIJKLMNOPQRSTUVWXYZ"
    ensures forall i :: 0 <= i < |upper| ==> IsLetter(upper[i])
  {
  }

  lemma NumbersSpec()
    ensures |Numbers| == 20 && forall i :: 0 <= i < |Numbers| ==> IsDigit(Numbers[i]) && Numbers[i] == DigitChar(i % 10)
  {
    var digits := "0123456789";
    assert Numbers == digits + digits;
    assert forall i :: 0 <= i < 10 ==> digits[i] == DigitChar(i);
  }

  lemma SymbolsSpec()
    ensures |Symbols| == 12 && forall i :: 0 <= i < |Symbols| ==> !IsLetter(Symbols[i]) && !IsDigit(Symbols[i])
  {
  }

  /** The characters a random password is drawn from. */
  function Charset(s: PasswordSettings): (r: string)
    ensures |r| == 52 + (if s.includeNumbers then 20 else 0) + (if s.includeSymbols then 12 else 0)
  {
    Letters + (if s.includeNumbers then Numbers else "") + (if s.includeSymbols then Symbols else "")
  }

  /** The number of characters the current mode produces. */
  function Length(s: PasswordSettings): nat {
    match s.kind
    case Random => s.randomLength
    case Pin => s.pinLength
  }

  /** `generatePassword`, given the bytes `crypto.getRandomValues` fills
      in: in random mode each byte picks a character of the charset by
      remainder, in PIN mode each byte gives its last decimal digit. */
  function Generate(s: PasswordSettings, bytes: seq<bv8>): (r: string)
    requires |bytes| == Length(s)
    ensures |r| == Length(s)
  {
    match s.kind
    case Random =>
      var charset := Charset(s);
      seq(|bytes|, k requires 0 <= k < |bytes| => charset[bytes[k] as int % |charset|])
    case Pin =>
      seq(|bytes|, k requires 0 <= k < |bytes| => DigitChar(bytes[k] as int % 10))
  }

  /** The output has the chosen length; a random password only uses the
      enabled alphabets, and with both toggles off it is letters only; a
      PIN is all digits and each reads back as its byte's last digit. */
  lemma GenerateSpec(s: PasswordSettings, bytes: seq<bv8>)
    requires |bytes| == Length(s)
    ensures var r := Generate(s, bytes);
      && |r| == Length(s)
      && (s.kind == Random ==> forall k :: 0 <= k < |r| ==>
            && r[k] in Charset(s)
            && (IsDigit(r[k]) ==> s.includeNumbers)
            && (!IsLetter(r[k]) && !IsDigit(r[k]) ==> s.includeSymbols))
      && (s.kind == Random && !s.includeNumbers && !s.includeSymbols ==>
            forall k :: 0 <= k < |r| ==> IsLetter(r[k]))
      && (s.kind == Pin ==> forall k :: 0 <= k < |r| ==>
            IsDigit(r[k]) && DigitValue(r[k]) == bytes[k] as int % 10)
  {
    AlphabetsSpec();
    var r := Generate(s, bytes);
    if s.kind == Random {
      var charset := Charset(s);
      forall k | 0 <= k < |r|
        ensures r[k] in charset
        ensures IsDigit(r[k]) ==> s.includeNumbers
        ensures !IsLetter(r[k]) && !IsDigit(r[k]) ==> s.includeSymbols
      {
        CharsetPart(s, bytes[k] as int % |charset|);
      }
    }
  }

  /** Settings on the sliders make a password of 8 to 64 characters, or a
      PIN of 3 to 12 digits. */
  lemma PasswordLengthOnSlider(s: PasswordSettings, bytes: seq<bv8>)
    requires OnSliders(s) && |bytes| == Length(s)
    ensures OnSlider(s.kind, |Generate(s, bytes)|)
    ensures s.kind == Random ==> 8 <= |Generate(s, bytes)| <= 64
    ensures s.kind == Pin ==> 3 <= |Generate(s, bytes)| <= 12
  {
    GenerateSpec(s, bytes);
  }

  /** Where a charset character comes from: the first 52 are letters, then
      the digits if enabled, then the symbols if enabled. */
  lemma CharsetPart(s: PasswordSettings, j: nat)
    requires j < |Charset(s)|
    ensures var c := Charset(s)[j];
      && (j < 52 ==> IsLetter(c))
      && (j >= 52 && s.includeNumbers && j < 72 ==> IsDigit(c))
      && (j >= 52 && !s.includeNumbers ==> s.includeSymbols && !IsLetter(c) && !IsDigit(c))
      && (j >= 72 && s.includeNumbers ==> s.includeSymbols && !IsLetter(c) && !IsDigit(c))
  {
    AlphabetsSpec();
    var charset := Charset(s);
    var numbers := if s.includeNumbers then Numbers else "";
    var symbols := if s.includeSymbols then Symbols else "";
    assert charset == Letters + numbers + symbols;
    if j < 52 {
      assert charset[j] == Letters[j];
    } else if j < 52 + |numbers| {
      assert charset[j] == numbers[j - 52];
    } else {
      assert charset[j] == symbols[j - 52 - |numbers|];
    }
  }

  datatype CharClass = NumberClass | SymbolClass | LetterClass

  /** `renderColoredPassword`'s test of one character: `[0-9]` first, then
      `[!@#$%&*\-_+=?]`, anything else shown as a letter. */
  function ClassOf(c: char): (k: CharClass)
    ensures k == NumberClass <==> IsDigit(c)
    ensures k == SymbolClass <==> !IsDigit(c) && c in Symbols
  {
    if IsDigit(c) then NumberClass
    else if c in "!@#$%&*-_+=?" then SymbolClass
    else LetterClass
  }

  /** The colour classes of a shown password, one per character; an empty
      password shows the "Generating..." placeholder instead. */
  function Colours(password: string): (r: Option<seq<CharClass>>)
    ensures r.None? <==> password == ""
    ensures r.Some? ==> |r.value| == |password|
  {
    if password == "" then None
    else Some(seq(|password|, k requires 0 <= k < |password| => ClassOf(password[k])))
  }

  /** The colour of a generated character tells which alphabet it was
      drawn from. */
  lemma ClassOfCharset(s: PasswordSettings, j: nat)
    requires j < |Charset(s)|
    ensures var c := Charset(s)[j];
      && (ClassOf(c) == LetterClass <==> j < 52)
      && (ClassOf(c) == NumberClass <==> 52 <= j && s.includeNumbers && j < 72)
  {
    AlphabetsSpec();
    CharsetPart(s, j);
    var c := Charset(s)[j];
    if j < 52 {
      assert c == Letters[j];
    }
    if j >= 52 && !(s.includeNumbers && j < 72) {
      var symbols := if s.includeSymbols then Symbols else "";
      var numbers := if s.includeNumbers then Numbers else "";
      assert Charset(s) == Letters + numbers + symbols;
      assert c == Symbols[j - 52 - |numbers|];
    }
  }

  /** The widget's state; `stored` is what `nexus_password_settings`
      holds. */
  class Widget {
    var settings: PasswordSettings
    var password: string
    var isClient: bool
    var stored: Option<PasswordSettings>

    /** A stored password always fits the settings shown, and once mounted
        the settings shown are the ones stored. */
    ghost predicate Valid()
      reads this
    {
      && (password != "" ==> exists bytes: seq<bv8> :: |bytes| == Length(settings) && password == Generate(settings, bytes))
      && (isClient ==> stored == Some(settings))
    }

    constructor (stored: Option<PasswordSettings>)
      ensures Valid()
      ensures settings == DefaultSettings && password == "" && !isClient && this.stored == stored
      ensures OnSliders(settings)
    {
      settings := DefaultSettings;
      password := "";
      isClient := false;
      this.stored := stored;
    }

    /** The mount effects: a stored record that parses replaces the
        defaults, it is written back, and the first password is
        generated. */
    method Mount(bytes: seq<bv8>)
      requires Valid() && !isClient
      requires |bytes| == Length(if stored.Some? then stored.value else settings)
      modifies this
      ensures Valid() && isClient
      ensures settings == if old(stored).Some? then old(stored).value else old(settings)
      ensures password == Generate(settings, bytes)
      ensures OnSliders(if old(stored).Some? then old(stored).value else old(settings)) ==> OnSliders(settings)
    {
      isClient := true;
      if stored.Some? {
        settings := stored.value;
      }
      stored := Some(settings);
      password := Generate(settings, bytes);
    }

    /** A new settings record and the effects that follow it: the record is
        stored, and the password is made again when a field changed and
        there is already a password. */
    method Update(next: PasswordSettings, bytes: seq<bv8>)
      requires Valid() && isClient
      requires |bytes| == Length(next)
      modifies this
      ensures Valid() && isClient
      ensures settings == next && stored == Some(next)
      ensures password == if next != old(settings) && old(password) != "" then Generate(next, bytes) else old(password)
    {
      var changed := next != settings;
      settings := next;
      stored := Some(next);
      if changed && password != "" {
        password := Generate(next, bytes);
      }
    }

    /** `handleTypeChange(kind)`. */
    method HandleTypeChange(kind: PasswordType, bytes: seq<bv8>)
      requires Valid() && isClient
      requires |bytes| == Length(settings.(kind := kind))
      modifies this
      ensures Valid() && isClient
      ensures OnSliders(old(settings)) ==> OnSliders(settings)
      ensures settings == old(settings).(kind := kind)
      ensures password == if settings != old(settings) && old(password) != "" then Generate(settings, bytes) else old(password)
    {
      Update(settings.(kind := kind), bytes);
    }

    /** `handleRandomLengthChange` with the slider's value. */
    method HandleRandomLengthChange(length: nat, bytes: seq<bv8>)
      requires Valid() && isClient
      requires OnSlider(Random, length)
      requires |bytes| == Length(settings.(randomLength := length))
      modifies this
      ensures Valid() && isClient
      ensures OnSliders(old(settings)) ==> OnSliders(settings)
      ensures settings == old(settings).(randomLength := length)
      ensures password == if settings != old(settings) && old(password) != "" then Generate(settings, bytes) else old(password)
    {
      Update(settings.(randomLength := length), bytes);
    }

    /** `handlePinLengthChange` with the slider's value. */
    method HandlePinLengthChange(length: nat, bytes: seq<bv8>)
      requires Valid() && isClient
      requires OnSlider(Pin, length)
      requires |bytes| == Length(settings.(pinLength := length))
      modifies this
      ensures Valid() && isClient
      ensures OnSliders(old(settings)) ==> OnSliders(settings)
      ensures settings == old(settings).(pinLength := length)
      ensures password == if settings != old(settings) && old(password) != "" then Generate(settings, bytes) else old(password)
    {
      Update(settings.(pinLength := length), bytes);
    }

    /** `toggleNumbers`: flips `includeNumbers` and nothing else, so the
        password is always made again. */
    method ToggleNumbers(bytes: seq<bv8>)
      requires Valid() && isClient
      requires |bytes| == Length(settings)
      modifies this
      ensures Valid() && isClient
      ensures OnSliders(old(settings)) ==> OnSliders(settings)
      ensures settings == old(settings).(includeNumbers := !old(settings).includeNumbers)
      ensures password == if old(password) != "" then Generate(settings, bytes) else old(password)
    {
      Update(settings.(includeNumbers := !settings.includeNumbers), bytes);
    }

    /** `toggleSymbols`. */
    method ToggleSymbols(bytes: seq<bv8>)
      requires Valid() && isClient
      requires |bytes| == Length(settings)
      modifies this
      ensures Valid() && isClient
      ensures OnSliders(old(settings)) ==> OnSliders(settings)
      ensures settings == old(settings).(includeSymbols := !old(settings).includeSymbols)
      ensures password == if old(password) != "" then Generate(settings, bytes) else old(password)
    {
      Update(settings.(includeSymbols := !settings.includeSymbols), bytes);
    }

    /** `handleRefresh`: a new password with the same settings. */
    method HandleRefresh(bytes: seq<bv8>)
      requires Valid()
      requires |bytes| == Length(settings)
      modifies this
      ensures Valid()
      ensures settings == old(settings) && stored == old(stored) && isClient == old(isClient)
      ensures password == Generate(settings, bytes)
    {
      password := Generate(settings, bytes);
    }
  }
}
