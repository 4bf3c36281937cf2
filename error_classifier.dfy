/**
 * utils/error_classifier.py: classification of a failure's text as
 * permanent or temporary, and the keyword predicates the steps use.
 * Every pattern is tested with Python's `in`, a literal substring test on
 * lower-cased text; entries such as "invalid.*credentials" therefore match
 * only the literal characters `.*`, never as a regular expression.
 */
module ErrorClassifier {
  import opened Text
  import opened Retry
  import opened Wrappers

  datatype Classification = Permanent | Temporary

  /** `Union[Exception, str]`: what the classifier accepts. */
  datatype ErrorInput = Message(text: string) | Error(exc: Exception) {
    /** `str(error)`. */
    function Str(): string {
      match this
      case Message(t) => t
      case Error(e) => e.message
    }
  }

  const PermanentPatterns: seq<string> := [
    "invalid.*credentials", "incorrect.*password", "wrong.*password",
    "authentication.*failed", "login.*failed", "access.*denied",
    "forbidden", "unauthorized", "401", "403",
    "invalid.*input", "malformed.*url", "invalid.*selector", "element.*not.*found",
    "account.*disabled", "account.*suspended", "account.*banned", "account.*locked",
    "selector.*not.*found"
  ]

  const TemporaryPatterns: seq<string> := [
    "net::ERR_", "timeout", "load.*failed", "navigation.*failed", "page.*crashed",
    "connection.*refused", "connection.*reset", "host.*unreachable", "was.*closed",
    "failed.*fetch", "network.*error", "502", "503", "504", "slow.*down",
    "target.*closed", "browser.*disconnected", "context.*disposed",
    "execution.*context.*was.*destroyed",
    "page.*load.*timeout", "document.*load.*timeout", "resource.*load.*failed"
  ]

  /** The `for pattern in patterns: if pattern.lower() in text: return` scan. */
  function FirstMatch(patterns: seq<string>, text: string): (r: Option<nat>)
    ensures r.Some? ==> r.value < |patterns| && Contains(text, Lower(patterns[r.value]))
    ensures r.Some? ==> forall j :: 0 <= j < r.value ==> !Contains(text, Lower(patterns[j]))
    ensures r.None? ==> forall j :: 0 <= j < |patterns| ==> !Contains(text, Lower(patterns[j]))
    decreases |patterns|
  {
    if patterns == [] then None
    else if Contains(text, Lower(patterns[0])) then Some(0)
    else match FirstMatch(patterns[1..], text)
      case None => None
      case Some(k) => Some(k + 1)
  }

  /** Some permanent pattern, lower-cased, occurs in the lower-cased text. */
  predicate HasPermanentPattern(text: string) {
    exists k :: 0 <= k < |PermanentPatterns| && Contains(Lower(text), Lower(PermanentPatterns[k]))
  }

  /**
   * `ErrorClassifier.classify_error`: Permanent exactly when some permanent
   * pattern occurs, and Temporary otherwise. The temporary scan never
   * changes the answer.
   */
  function ClassifyError(error: ErrorInput): (c: Classification)
    ensures c == Permanent <==> HasPermanentPattern(error.Str())
    ensures c == Temporary <==> !HasPermanentPattern(error.Str())
  {
    var text := Lower(error.Str());
    if FirstMatch(PermanentPatterns, text).Some? then Permanent
    else if FirstMatch(TemporaryPatterns, text).Some? then Temporary
    else Temporary
  }

  /** Classification sees only `str(error)`: an exception's tag plays no part. */
  lemma ClassifyIgnoresKind(e: Exception, kind: ExceptionKind)
    ensures ClassifyError(Error(e)) == ClassifyError(Error(Exception(kind, e.message)))
    ensures ClassifyError(Error(e)) == ClassifyError(Message(e.message))
  {
  }

  /** `ErrorClassifier.is_permanent_error`; the negation of `is_temporary_error`. */
  predicate IsPermanentError(error: ErrorInput)
    ensures IsPermanentError(error) <==> !IsTemporaryError(error)
  {
    ClassifyError(error) == Permanent
  }

  /** `ErrorClassifier.is_temporary_error`: no permanent pattern occurs. */
  predicate IsTemporaryError(error: ErrorInput)
    ensures IsTemporaryError(error) <==> !HasPermanentPattern(error.Str())
  {
    ClassifyError(error) == Temporary
  }

  const PermanentPrefix: string := "Permanent error: "
  const TemporaryPrefix: string := "Temporary error: "

  /**
   * `classify_and_raise`: the exception it raises, tagged by the
   * classification of its argument and carrying its text behind a prefix.
   */
  function ClassifyAndRaise(error: ErrorInput): (e: Exception)
    ensures e.kind == PermanentError <==> ClassifyError(error) == Permanent
    ensures e.kind == TemporaryError <==> ClassifyError(error) == Temporary
    ensures e.message == (if e.kind == PermanentError then PermanentPrefix else TemporaryPrefix) + error.Str()
  {
    if ClassifyError(error) == Permanent then Exception(PermanentError, PermanentPrefix + error.Str())
    else Exception(TemporaryError, TemporaryPrefix + error.Str())
  }

  const LoginPatterns: seq<string> :=
    ["password", "credential", "login", "auth", "incorrect", "invalid.*user", "invalid.*account"]

  const NetworkPatterns: seq<string> :=
    ["timeout", "net::err_", "connection.*refused", "connection.*reset", "host.*unreachable",
     "502", "503", "504", "network.*error"]

  const ElementPatterns: seq<string> :=
    ["element.*not.*found", "locator.*not.*found", "selector.*not.*found", "could.*not.*find", "does.*not.*exist"]

  /** The entries of each list written without `.*`. */
  const PlainLoginPatterns: seq<string> := ["password", "credential", "login", "auth", "incorrect"]
  const PlainNetworkPatterns: seq<string> := ["timeout", "net::err_", "502", "503", "504"]

  /**
   * `is_login_error`. Its two `.*` entries never match text without a `*`,
   * where it asks for one of the five plain words.
   */
  predicate IsLoginError(error: ErrorInput)
    ensures '*' !in Lower(error.Str()) ==> (IsLoginError(error) <==> ContainsAny(Lower(error.Str()), PlainLoginPatterns))
  {
    var t := Lower(error.Str());
    LoginPatternShape();
    ContainsAnyLive(t, LoginPatterns, PlainLoginPatterns, '*');
    ContainsAny(t, LoginPatterns)
  }

  /**
   * `is_network_error`. Its four `.*` entries never match text without a
   * `*`, where it asks for "timeout", "net::err_", "502", "503" or "504".
   */
  predicate IsNetworkError(error: ErrorInput)
    ensures '*' !in Lower(error.Str()) ==> (IsNetworkError(error) <==> ContainsAny(Lower(error.Str()), PlainNetworkPatterns))
  {
    var t := Lower(error.Str());
    NetworkPatternShape();
    ContainsAnyLive(t, NetworkPatterns, PlainNetworkPatterns, '*');
    ContainsAny(t, NetworkPatterns)
  }

  /**
   * `is_timeout_error`: any Playwright timeout, whatever its text, or text
   * mentioning "timeout". Outside Playwright timeouts a timeout error is
   * also a network error, "timeout" being the first network entry.
   */
  predicate IsTimeoutError(error: ErrorInput)
    ensures IsTimeoutError(error) && !(error.Error? && error.exc.kind == PlaywrightTimeout) ==> IsNetworkError(error)
  {
    assert NetworkPatterns[0] == "timeout";
    (error.Error? && error.exc.kind == PlaywrightTimeout) || Contains(Lower(error.Str()), "timeout")
  }

  /**
   * `is_element_not_found_error`. Every entry holds `.*`, so no text
   * without a `*` is an element-not-found error.
   */
  predicate IsElementNotFoundError(error: ErrorInput)
    ensures '*' !in Lower(error.Str()) ==> !IsElementNotFoundError(error)
  {
    var t := Lower(error.Str());
    ElementPatternShape();
    ContainsAnyLive(t, ElementPatterns, [], '*');
    ContainsAny(t, ElementPatterns)
  }

  lemma LoginPatternShape()
    ensures forall k :: 0 <= k < |LoginPatterns| ==> '*' in LoginPatterns[k] || LoginPatterns[k] in PlainLoginPatterns
    ensures forall j :: 0 <= j < |PlainLoginPatterns| ==> PlainLoginPatterns[j] in LoginPatterns
  {
    forall k | 0 <= k < |LoginPatterns|
      ensures '*' in LoginPatterns[k] || LoginPatterns[k] in PlainLoginPatterns
    {
      if k < 5 {
        assert LoginPatterns[k] == PlainLoginPatterns[k];
      } else {
        assert LoginPatterns[k][8] == '*';
      }
    }
    forall j | 0 <= j < |PlainLoginPatterns|
      ensures PlainLoginPatterns[j] in LoginPatterns
    {
      assert LoginPatterns[j] == PlainLoginPatterns[j];
    }
  }

  lemma NetworkPatternShape()
    ensures forall k :: 0 <= k < |NetworkPatterns| ==> '*' in NetworkPatterns[k] || NetworkPatterns[k] in PlainNetworkPatterns
    ensures forall j :: 0 <= j < |PlainNetworkPatterns| ==> PlainNetworkPatterns[j] in NetworkPatterns
  {
    forall k | 0 <= k < |NetworkPatterns|
      ensures '*' in NetworkPatterns[k] || NetworkPatterns[k] in PlainNetworkPatterns
    {
      if k < 2 {
        assert NetworkPatterns[k] == PlainNetworkPatterns[k];
      } else if 5 <= k <= 7 {
        assert NetworkPatterns[k] == PlainNetworkPatterns[k - 3];
      } else if k == 8 {
        assert NetworkPatterns[k][8] == '*';
      } else if k == 4 {
        assert NetworkPatterns[k][5] == '*';
      } else {
        assert NetworkPatterns[k][11] == '*';
      }
    }
    forall j | 0 <= j < |PlainNetworkPatterns|
      ensures PlainNetworkPatterns[j] in NetworkPatterns
    {
      if j < 2 {
        assert NetworkPatterns[j] == PlainNetworkPatterns[j];
      } else {
        assert NetworkPatterns[j + 3] == PlainNetworkPatterns[j];
      }
    }
  }

  lemma ElementPatternShape()
    ensures forall k :: 0 <= k < |ElementPatterns| ==> '*' in ElementPatterns[k]
  {
    forall k | 0 <= k < |ElementPatterns|
      ensures '*' in ElementPatterns[k]
    {
      if k == 3 {
        assert ElementPatterns[k][6] == '*';
      } else if k == 4 {
        assert ElementPatterns[k][5] == '*';
      } else if k == 2 {
        assert ElementPatterns[k][9] == '*';
      } else {
        assert ElementPatterns[k][8] == '*';
      }
    }
  }

  // ---------------------------------------------------------------------
  // Properties

  /** A Playwright timeout is a timeout error whatever its text. */
  lemma PlaywrightTimeoutIsTimeout(message: string)
    ensures IsTimeoutError(Error(Exception(PlaywrightTimeout, message)))
  {
  }

  /** The four entries written without `.*`. */
  const PlainPermanentPatterns: seq<string> := ["forbidden", "unauthorized", "401", "403"]

  /** Entries 6 to 9 are the plain ones; every other entry has a `*`, also once lower-cased. */
  lemma PermanentPatternShape(k: nat)
    requires k < |PermanentPatterns|
    ensures 6 <= k <= 9 ==> Lower(PermanentPatterns[k]) == PlainPermanentPatterns[k - 6]
    ensures !(6 <= k <= 9) ==> '*' in Lower(PermanentPatterns[k])
  {
    if 6 <= k <= 9 {
      assert PermanentPatterns[k] == PlainPermanentPatterns[k - 6];
      assert NoUpper(PlainPermanentPatterns[k - 6]);
      LowerNoUpper(PlainPermanentPatterns[k - 6]);
    } else {
      assert '*' in PermanentPatterns[k];
      LowerKeepsChar(PermanentPatterns[k], '*');
    }
  }

  /**
   * On text without a `*`, every `.*` entry is dead: the text is permanent
   * exactly when it contains "forbidden", "unauthorized", "401" or "403".
   */
  lemma StarFreePermanentIff(text: string)
    requires '*' !in Lower(text)
    ensures HasPermanentPattern(text) <==> ContainsAny(Lower(text), PlainPermanentPatterns)
  {
    var t := Lower(text);
    ContainsAnyIff(t, PlainPermanentPatterns);
    if HasPermanentPattern(text) {
      var k :| 0 <= k < |PermanentPatterns| && Contains(t, Lower(PermanentPatterns[k]));
      PermanentPatternShape(k);
      if !(6 <= k <= 9) {
        MissingChar(t, Lower(PermanentPatterns[k]), '*');
      }
      assert Contains(t, PlainPermanentPatterns[k - 6]);
    }
    if ContainsAny(t, PlainPermanentPatterns) {
      var j :| 0 <= j < 4 && Contains(t, PlainPermanentPatterns[j]);
      PermanentPatternShape(j + 6);
    }
  }

  /** A plain entry occurring in the lower-cased text makes it Permanent. */
  lemma PlainPresent(error: ErrorInput, j: nat, i: int)
    requires j < 4 && OccursAt(Lower(error.Str()), PlainPermanentPatterns[j], i)
    ensures ClassifyError(error) == Permanent
  {
    PermanentPatternShape(j + 6);
    assert Contains(Lower(error.Str()), Lower(PermanentPatterns[j + 6]));
  }

  /**
   * Text whose lower-cased form has no `*` and lacks a character of each
   * plain entry is Temporary.
   */
  lemma PlainAbsent(error: ErrorInput, c0: char, c1: char, c2: char, c3: char)
    requires Avoids(Lower(error.Str()), ['*', c0, c1, c2, c3])
    requires c0 in "forbidden" && c1 in "unauthorized" && c2 in "401" && c3 in "403"
    ensures ClassifyError(error) == Temporary
  {
    var t := Lower(error.Str());
    assert '*' !in t && c0 !in t && c1 !in t && c2 !in t && c3 !in t;
    StarFreePermanentIff(error.Str());
    MissingChar(t, "forbidden", c0);
    MissingChar(t, "unauthorized", c1);
    MissingChar(t, "401", c2);
    MissingChar(t, "403", c3);
    assert !ContainsAny(t, PlainPermanentPatterns[3..]);
    assert !ContainsAny(t, PlainPermanentPatterns[2..]);
    assert !ContainsAny(t, PlainPermanentPatterns[1..]);
  }

  /** Permanent patterns are checked first: text with both "401" and "timeout" is Permanent. */
  lemma PermanentBeatsTemporary(text: string)
    requires Contains(Lower(text), "401") && Contains(Lower(text), "timeout")
    ensures ClassifyError(Message(text)) == Permanent
  {
    var i: int :| OccursAt(Lower(text), "401", i);
    assert OccursAt(Lower(text), PlainPermanentPatterns[2], i);
    PlainPresent(Message(text), 2, i);
  }

  lemma UnauthorizedIsPermanent()
    ensures ClassifyError(Message("401 unauthorized")) == Permanent
  {
    assert OccursAt(Lower("401 unauthorized"), PlainPermanentPatterns[2], 0);
    PlainPresent(Message("401 unauthorized"), 2, 0);
  }

  /**
   * "invalid credentials" is Temporary: the entry "invalid.*credentials" asks
   * for the characters `.*`, which the text lacks.
   */
  lemma InvalidCredentialsIsTemporary()
    ensures ClassifyError(Message("invalid credentials")) == Temporary
  {
    PlainAbsent(Message("invalid credentials"), 'f', 'u', '4', '4');
  }

  /** Unrecognised text defaults to Temporary. */
  lemma UnknownErrorIsTemporary()
    ensures ClassifyError(Message("some unknown error")) == Temporary
  {
    PlainAbsent(Message("some unknown error"), 'f', 'a', '4', '4');
  }

  lemma ClickInterceptedIsTemporary()
    ensures ClassifyError(Message("element click intercepted")) == Temporary
  {
    PlainAbsent(Message("element click intercepted"), 'f', 'u', '4', '4');
  }

  /** A `PermanentError("Bad credentials")` classifies Temporary: only its text counts. */
  lemma BadCredentialsExceptionIsTemporary()
    ensures ClassifyError(Error(Exception(PermanentError, "Bad credentials"))) == Temporary
  {
    PlainAbsent(Error(Exception(PermanentError, "Bad credentials")), 'f', 'u', '4', '4');
  }

  /** classify_and_raise("timeout occurred") raises a TemporaryError. */
  lemma TimeoutOccurredRaisesTemporary()
    ensures ClassifyAndRaise(Message("timeout occurred")) == Exception(TemporaryError, TemporaryPrefix + "timeout occurred")
  {
    PlainAbsent(Message("timeout occurred"), 'f', 'n', '4', '4');
  }

  /**
   * Text whose lower-cased form has no `*`, `m`, `:` or `5` is not a network
   * error: each network entry asks for one of those characters.
   */
  lemma NetworkAbsent(error: ErrorInput)
    requires Avoids(Lower(error.Str()), "*m:5")
    ensures !IsNetworkError(error)
  {
    var t := Lower(error.Str());
    assert '*' !in t && 'm' !in t && ':' !in t && '5' !in t;
    MissingChar(t, "timeout", 'm');
    MissingChar(t, "net::err_", ':');
    MissingChar(t, "502", '5');
    MissingChar(t, "503", '5');
    MissingChar(t, "504", '5');
    assert !ContainsAny(t, PlainNetworkPatterns[4..]);
    assert !ContainsAny(t, PlainNetworkPatterns[3..]);
    assert !ContainsAny(t, PlainNetworkPatterns[2..]);
    assert !ContainsAny(t, PlainNetworkPatterns[1..]);
  }

  /**
   * "connection reset" is not a network error: the entry "connection.*reset"
   * asks for the characters `.*`.
   */
  lemma ConnectionResetMissed()
    ensures !IsNetworkError(Message("connection reset"))
  {
    LowerNoUpper("connection reset");
    NetworkAbsent(Message("connection reset"));
  }

  /** Nor is "network error", which "network.*error" does not match. */
  lemma NetworkErrorMissed()
    ensures !IsNetworkError(Message("network error"))
  {
    LowerNoUpper("network error");
    NetworkAbsent(Message("network error"));
  }

  /**
   * A message that embeds a text keeps every pattern the text holds: if the
   * text is permanent, so is the message. The steps rely on this when they
   * re-classify "<context>: <error>".
   */
  lemma EmbeddingKeepsPermanent(prefix: string, text: string)
    requires HasPermanentPattern(text)
    ensures HasPermanentPattern(prefix + text)
  {
    var k :| 0 <= k < |PermanentPatterns| && Contains(Lower(text), Lower(PermanentPatterns[k]));
    LowerAppend(prefix, text);
    ContainsExtend(Lower(prefix), Lower(text), "", Lower(PermanentPatterns[k]));
    assert Lower(prefix) + Lower(text) + "" == Lower(prefix + text);
  }
}
