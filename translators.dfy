/**
 * utils/translators.py: the French explanation shown to the user for a
 * failure text. One recursive unwrapping of an "Unexpected error:" prefix,
 * then an ordered chain of keyword tests on the lower-cased text.
 */
module Translators {
  import opened Text

  const UnexpectedPrefix: string := "unexpected error:"

  const FollowUpTooSlowText: string :=
    "Le message de confirmation du site n'est pas apparu à temps. Le site était peut-être trop lent ou une erreur inattendue s'est produite."
  const ClickTooSlowText: string :=
    "Je n'ai pas réussi à cliquer sur le bouton pour copier l'ordre car le site était trop lent à charger."
  const CredentialsRejectedText: string :=
    "Les identifiants de connexion pour ce compte sont incorrects. Le compte est ignoré."
  const PermanentSkipText: string :=
    "Une erreur permanente est survenue (ex: compte bloqué ou problème de validation de session). Ce compte sera ignoré jusqu'à correction."
  const AlreadyCopiedText: string :=
    "L'ordre a déjà été copié sur ce compte précédemment."
  const SessionExpiredText: string :=
    "La session a expiré ou la connexion a échoué. Je n'ai pas pu accéder à la page de trading."
  const TooSlowText: string :=
    "L'opération a expiré car le site a mis trop de temps à répondre."
  const UnlistedLead: string :=
    "Une erreur technique non répertoriée est survenue. Contactez le support avec cette information : \""

  /** The default reply, quoting the first 70 characters of the text. */
  function UnlistedText(msg: string): (r: string)
    ensures r == UnlistedLead + Take(msg, 70) + "\"..."
    ensures Contains(r, Take(msg, 70))
  {
    var r := UnlistedLead + Take(msg, 70) + "\"...";
    assert OccursAt(r, Take(msg, 70), |UnlistedLead|);
    r
  }

  /** The replies `translate_error` can give. */
  datatype Reply =
    | FollowUpTooSlow | ClickTooSlow | CredentialsRejected | PermanentSkip
    | AlreadyCopied | SessionExpired | TooSlow | Unlisted

  function ReplyText(reply: Reply, msg: string): string {
    match reply
    case FollowUpTooSlow => FollowUpTooSlowText
    case ClickTooSlow => ClickTooSlowText
    case CredentialsRejected => CredentialsRejectedText
    case PermanentSkip => PermanentSkipText
    case AlreadyCopied => AlreadyCopiedText
    case SessionExpired => SessionExpiredText
    case TooSlow => TooSlowText
    case Unlisted => UnlistedText(msg)
  }

  /**
   * The decision of `translate_error`: an "Unexpected error:" prefix
   * (tested case-insensitively) is cut from the original text, the rest
   * stripped and translated again; otherwise the keyword tests run in order.
   * The recursion amounts to one run of the keyword tests on the
   * lower-cased, fully unwrapped text.
   */
  function Explain(msg: string): (r: Reply)
    ensures r == KeywordTests(Lower(Unwrapped(msg)))
    decreases |msg|
  {
    var lower := Lower(msg);
    if StartsWith(lower, UnexpectedPrefix) then
      Explain(Strip(msg[|UnexpectedPrefix|..]))
    else
      KeywordTests(lower)
  }

  /** Lines 13-31: the keyword tests on the lower-cased text. */
  function KeywordTests(lower: string): Reply {
    if Contains(lower, "follow-up success message not found") then FollowUpTooSlow
    else if Contains(lower, "timeout clicking follow order button") then ClickTooSlow
    else if Contains(lower, "permanent error") then
      (if Contains(lower, "incorrect credentials") then CredentialsRejected else PermanentSkip)
    else if Contains(lower, "order already exists") || Contains(lower, "exist") then AlreadyCopied
    else if Contains(lower, "not logged in") then SessionExpired
    else if Contains(lower, "timeout") then TooSlow
    else Unlisted
  }

  /** The text left once every leading "Unexpected error:" is removed. */
  function Unwrapped(msg: string): (core: string)
    ensures |core| <= |msg|
    ensures !StartsWith(Lower(core), UnexpectedPrefix)
    ensures core == msg <==> !StartsWith(Lower(msg), UnexpectedPrefix)
    decreases |msg|
  {
    if StartsWith(Lower(msg), UnexpectedPrefix) then Unwrapped(Strip(msg[|UnexpectedPrefix|..])) else msg
  }

  /** `translate_error`: the chosen reply, the default one quoting the unwrapped text. */
  function TranslateError(msg: string): (r: string)
    ensures Explain(msg) == Unlisted ==> Contains(r, Take(Unwrapped(msg), 70))
  {
    ReplyText(Explain(msg), Unwrapped(msg))
  }

  // ---------------------------------------------------------------------
  // Reference definition: an ordered rule table, first match wins.

  /** A rule fires when every one of its keywords occurs. */
  datatype Rule = Rule(keywords: seq<string>, reply: Reply)

  predicate Fires(rule: Rule, lower: string) {
    AllOccur(lower, rule.keywords)
  }

  predicate AllOccur(lower: string, keywords: seq<string>)
    decreases |keywords|
  {
    keywords == [] || (Contains(lower, keywords[0]) && AllOccur(lower, keywords[1..]))
  }

  const RuleTable: seq<Rule> := [
    Rule(["follow-up success message not found"], FollowUpTooSlow),
    Rule(["timeout clicking follow order button"], ClickTooSlow),
    Rule(["permanent error", "incorrect credentials"], CredentialsRejected),
    Rule(["permanent error"], PermanentSkip),
    Rule(["order already exists"], AlreadyCopied),
    Rule(["exist"], AlreadyCopied),
    Rule(["not logged in"], SessionExpired),
    Rule(["timeout"], TooSlow)
  ]

  /** The index of the first rule that fires, or `|rules|` when none does. */
  function FirstRule(rules: seq<Rule>, lower: string): (i: nat)
    ensures i <= |rules|
    ensures i < |rules| ==> Fires(rules[i], lower)
    ensures forall j :: 0 <= j < i ==> !Fires(rules[j], lower)
    decreases |rules|
  {
    if rules == [] then 0
    else if Fires(rules[0], lower) then 0
    else 1 + FirstRule(rules[1..], lower)
  }

  function Decide(lower: string): Reply {
    var i := FirstRule(RuleTable, lower);
    if i < |RuleTable| then RuleTable[i].reply else Unlisted
  }

  // ---------------------------------------------------------------------
  // Properties

  /**
   * The chain of keyword tests is the rule table read in order, first match
   * wins; with `Explain`'s contract, the translation is that decision on
   * the lower-cased unwrapped text.
   */
  lemma KeywordTestsByTable(lower: string)
    ensures KeywordTests(lower) == Decide(lower)
  {
    var i := FirstRule(RuleTable, lower);
    TableFires(lower);
    if Contains(lower, "follow-up success message not found") {
      assert i == 0;
    } else if Contains(lower, "timeout clicking follow order button") {
      assert i == 1;
    } else if Contains(lower, "permanent error") {
      if Contains(lower, "incorrect credentials") {
        assert i == 2;
      } else {
        assert i == 3;
      }
    } else if Contains(lower, "order already exists") {
      assert i == 4;
    } else if Contains(lower, "exist") {
      assert i == 5;
    } else if Contains(lower, "not logged in") {
      assert i == 6;
    } else if Contains(lower, "timeout") {
      assert i == 7;
    } else {
      assert i == 8;
    }
  }

  /** When each rule of the table fires. */
  lemma TableFires(lower: string)
    ensures |RuleTable| == 8
    ensures Fires(RuleTable[0], lower) <==> Contains(lower, "follow-up success message not found")
    ensures Fires(RuleTable[1], lower) <==> Contains(lower, "timeout clicking follow order button")
    ensures Fires(RuleTable[2], lower) <==> Contains(lower, "permanent error") && Contains(lower, "incorrect credentials")
    ensures Fires(RuleTable[3], lower) <==> Contains(lower, "permanent error")
    ensures Fires(RuleTable[4], lower) <==> Contains(lower, "order already exists")
    ensures Fires(RuleTable[5], lower) <==> Contains(lower, "exist")
    ensures Fires(RuleTable[6], lower) <==> Contains(lower, "not logged in")
    ensures Fires(RuleTable[7], lower) <==> Contains(lower, "timeout")
  {
    assert AllOccur(lower, []);
  }

  /** A leading "Unexpected error:" is cut and the stripped rest translated again; the rest is shorter. */
  lemma UnwrapRetranslates(msg: string)
    requires StartsWith(Lower(msg), UnexpectedPrefix)
    ensures |Strip(msg[|UnexpectedPrefix|..])| < |msg|
    ensures TranslateError(msg) == TranslateError(Strip(msg[|UnexpectedPrefix|..]))
  {
  }

  /**
   * Past the first two rules, "permanent error" decides alone between the two
   * permanent replies, whatever else ("exist", "timeout") the text holds.
   */
  lemma PermanentFamily(msg: string)
    requires !StartsWith(Lower(msg), UnexpectedPrefix)
    requires !Contains(Lower(msg), "follow-up success message not found")
    requires !Contains(Lower(msg), "timeout clicking follow order button")
    requires Contains(Lower(msg), "permanent error")
    ensures Explain(msg) == CredentialsRejected || Explain(msg) == PermanentSkip
    ensures Explain(msg) == CredentialsRejected <==> Contains(Lower(msg), "incorrect credentials")
  {
  }

  /** Any "exist" that survives the first rules, "not exist" included, means the order was already copied. */
  lemma ExistMeansAlreadyCopied(msg: string)
    requires !StartsWith(Lower(msg), UnexpectedPrefix)
    requires !Contains(Lower(msg), "follow-up success message not found")
    requires !Contains(Lower(msg), "timeout clicking follow order button")
    requires !Contains(Lower(msg), "permanent error")
    ensures Explain(msg) == AlreadyCopied <==> Contains(Lower(msg), "exist")
  {
    if Contains(Lower(msg), "order already exists") {
      OrderAlreadyExistsIsRedundant(Lower(msg));
    }
  }

  /** The "order already exists" test is subsumed by the "exist" test beside it. */
  lemma OrderAlreadyExistsIsRedundant(lower: string)
    requires Contains(lower, "order already exists")
    ensures Contains(lower, "exist")
  {
    assert OccursAt("order already exists", "exist", 14);
    ContainsTrans(lower, "order already exists", "exist");
  }

  lemma {:induction false} StripLeftLower(a: string, b: string)
    requires Lower(a) == Lower(b)
    ensures Lower(StripLeft(a)) == Lower(StripLeft(b))
    decreases |a|
  {
    if a != [] {
      assert LowerChar(a[0]) == LowerChar(b[0]) by { assert Lower(a)[0] == Lower(b)[0]; }
      LowerCharSpace(a[0]);
      LowerCharSpace(b[0]);
      if IsSpace(a[0]) {
        assert Lower(a[1..]) == Lower(a)[1..] && Lower(b[1..]) == Lower(b)[1..];
        StripLeftLower(a[1..], b[1..]);
      }
    }
  }

  /** Texts that agree once lower-cased agree on every prefix, once lower-cased. */
  lemma LowerPrefix(a: string, b: string, n: nat)
    requires Lower(a) == Lower(b) && n <= |a|
    ensures Lower(a[..n]) == Lower(b[..n])
  {
    forall i | 0 <= i < n ensures Lower(a[..n])[i] == Lower(b[..n])[i] {
      assert Lower(a)[i] == Lower(b)[i];
    }
  }

  /** One step of `StripRight`: a trailing space is dropped, anything else ends the strip. */
  lemma StripRightStep(a: string)
    requires a != []
    ensures IsSpace(a[|a| - 1]) ==> StripRight(a) == StripRight(a[..|a| - 1])
    ensures !IsSpace(a[|a| - 1]) ==> StripRight(a) == a
  {
  }

  lemma {:induction false} StripRightLower(a: string, b: string)
    requires Lower(a) == Lower(b)
    ensures Lower(StripRight(a)) == Lower(StripRight(b))
    decreases |a|
  {
    if a != [] {
      var n := |a| - 1;
      assert LowerChar(a[n]) == LowerChar(b[n]) by { assert Lower(a)[n] == Lower(b)[n]; }
      LowerCharSpace(a[n]);
      LowerCharSpace(b[n]);
      StripRightStep(a);
      StripRightStep(b);
      if IsSpace(a[n]) {
        LowerPrefix(a, b, n);
        StripRightLower(a[..n], b[..n]);
      }
    }
  }

  /**
   * The decision depends only on the lower-cased text: the keyword tests and
   * the prefix test read it, and the prefix cut agrees on both texts.
   */
  lemma {:induction false} ExplainIgnoresCase(a: string, b: string)
    requires Lower(a) == Lower(b)
    ensures Explain(a) == Explain(b)
    decreases |a|
  {
    if StartsWith(Lower(a), UnexpectedPrefix) {
      var n := |UnexpectedPrefix|;
      assert Lower(a[n..]) == Lower(a)[n..] && Lower(b[n..]) == Lower(b)[n..];
      StripLeftLower(a[n..], b[n..]);
      StripRightLower(StripLeft(a[n..]), StripLeft(b[n..]));
      ExplainIgnoresCase(Strip(a[n..]), Strip(b[n..]));
    }
  }

  lemma NotExistExample()
    ensures Explain("Order does not exist") == AlreadyCopied
  {
    var msg := "Order does not exist";
    var lower := Lower(msg);
    assert lower[0] == 'o';
    assert !StartsWith(lower, UnexpectedPrefix) by { assert lower[0] != UnexpectedPrefix[0]; }
    assert Avoids(lower, "mfp");
    MissingChar(lower, "follow-up success message not found", 'f');
    MissingChar(lower, "timeout clicking follow order button", 'm');
    MissingChar(lower, "permanent error", 'p');
    assert OccursAt(lower, "exist", 15);
  }
}
