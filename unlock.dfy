/** The Pro unlock gate of app.py: a user-entered code, trimmed and
    lower-cased, is compared with one configured secret. */
module Unlock {
  import opened PyStr

  /** The secret used when the `PRO_UNLOCK_CODE` environment variable is unset. */
  const DefaultUnlockCode := "loomvale-pro"

  const UnlockedMessage := "<span style='color:#1B9C85;font-weight:600'>Pro mode unlocked! Enjoy extended outputs, trend deep dives, and export packs.</span>"
  const EnterCodeMessage := "<span style='color:#E07A5F'>Enter your unlock code to access Pro depth, or grab it via the purchase button.</span>"
  /** The apostrophe is stored as the three characters a UTF-8 right quote
      becomes when read as Windows-1252, as in the source text. */
  const MismatchMessage := "<span style='color:#E07A5F'>That code didn\U{E2}\U{20AC}\U{2122}t match. Double-check your unlock email from Gumroad.</span>"

  /** `code.strip().lower()`: how both the entered code and the configured
      secret are normalised. */
  function Normalize(code: string): (n: string)
    ensures IsStripped(n)
    ensures n == "" <==> AllSpace(code)
    ensures forall i :: 0 <= i < |n| ==> !IsUpperAscii(n[i])
    ensures |n| == |Strip(code)|
    ensures forall i :: 0 <= i < |n| ==> n[i] == LowerChar(Strip(code)[i])
  {
    StripFacts(code);
    var t := Strip(code);
    var n := Lower(t);
    assert forall i :: 0 <= i < |n| ==> n[i] == LowerChar(t[i]);
    assert |n| > 0 ==> !IsSpace(n[0]) && !IsSpace(n[|n| - 1]);
    n
  }

  /** `PRO_UNLOCK_CODE`, from the environment value (or the default). */
  function ProUnlockCode(env: string): (secret: string)
    ensures IsStripped(secret)
    ensures secret == "" <==> AllSpace(env)
    ensures forall i :: 0 <= i < |secret| ==> !IsUpperAscii(secret[i])
    ensures |secret| == |Strip(env)|
    ensures forall i :: 0 <= i < |secret| ==> secret[i] == LowerChar(Strip(env)[i])
  {
    Normalize(env)
  }

  /** `unlock_pro(code)`: the status message and the new Pro flag, given the
      configured secret. */
  function UnlockPro(code: string, secret: string): (r: (string, bool))
    ensures r.1 <==> Normalize(code) != "" && Normalize(code) == secret
    ensures r.0 == UnlockedMessage <==> r.1
    ensures r.0 == EnterCodeMessage <==> AllSpace(code)
    ensures r.0 == MismatchMessage <==> !AllSpace(code) && Normalize(code) != secret
  {
    var normalized := Normalize(code);
    assert |UnlockedMessage| != |EnterCodeMessage|;
    assert |UnlockedMessage| != |MismatchMessage|;
    assert |EnterCodeMessage| != |MismatchMessage|;
    if normalized != "" && normalized == secret then (UnlockedMessage, true)
    else if normalized == "" then (EnterCodeMessage, false)
    else (MismatchMessage, false)
  }

  /** Any code that agrees with the configured value once both are trimmed and
      ASCII case is ignored unlocks Pro, provided the configured value is not
      blank. */
  lemma UnlockAcceptsVariants(code: string, env: string)
    requires !AllSpace(env)
    requires |Strip(code)| == |Strip(env)|
    requires forall i :: 0 <= i < |Strip(code)| ==> LowerChar(Strip(code)[i]) == LowerChar(Strip(env)[i])
    ensures UnlockPro(code, ProUnlockCode(env)).1
  {
    var n, secret := Normalize(code), ProUnlockCode(env);
    assert n == secret;
  }

  /** A blank configured value locks Pro for every code. */
  lemma UnlockNeverWithBlankSecret(code: string, env: string)
    requires AllSpace(env)
    ensures !UnlockPro(code, ProUnlockCode(env)).1
  {
  }

  /** With `PRO_UNLOCK_CODE` unset, the secret is the default code itself. */
  lemma DefaultSecret()
    ensures ProUnlockCode(DefaultUnlockCode) == DefaultUnlockCode
  {
  }

  /** Case and a trailing space do not matter to the normalisation. */
  lemma NormalizeShouted()
    ensures Normalize("LOOMVALE-PRO ") == DefaultUnlockCode
  {
  }

  /** The gate accepts the default secret in any case and with surrounding
      whitespace, and rejects the empty code and a wrong one. */
  lemma UnlockAcceptsShoutedCode()
    ensures UnlockPro("LOOMVALE-PRO ", ProUnlockCode(DefaultUnlockCode)).1
  {
    DefaultSecret();
    NormalizeShouted();
  }

  lemma UnlockRejectsEmptyCode()
    ensures UnlockPro("", ProUnlockCode(DefaultUnlockCode)) == (EnterCodeMessage, false)
  {
  }

  lemma UnlockRejectsWrongCode()
    ensures UnlockPro("wrong", ProUnlockCode(DefaultUnlockCode)) == (MismatchMessage, false)
  {
    DefaultSecret();
    var w := "wrong";
    assert !IsSpace(w[0]) && !IsSpace(w[4]);
    assert IsStripped(w);
    StripFacts(w);
    assert Strip(w) == w;
    assert |Normalize(w)| == 5;
    var r := UnlockPro("wrong", ProUnlockCode(DefaultUnlockCode));
    assert r.0 == MismatchMessage && !r.1;
  }
}
