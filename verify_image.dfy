/** The `verify-image` edge function: classify a report's crime category as
    sensitive or not by keyword, and derive the review status from that. */
module VerifyImage {
  import opened Wrappers

  // ------------------------------------------------------------------ constants

  /** Categories whose images go to a human moderator before publication. */
  const SensitiveCategories: seq<string> := ["killing", "murder", "homicide", "dead body", "violent death"]

  const NeedsReview: string := "needs_review"
  const Approved: string := "approved"
  const HumanModeration: string := "human_moderation"
  const Publish: string := "publish"
  const Received: string := "Verification received"

  /** The HTTP method of a CORS preflight request. */
  const Preflight: string := "OPTIONS"

  // ------------------------------------------------------------------ ASCII case

  function LowerChar(c: char): char {
    if 'A' <= c <= 'Z' then (c as int + 32) as char else c
  }

  function UpperChar(c: char): char {
    if 'a' <= c <= 'z' then (c as int - 32) as char else c
  }

  /** Lower-casing, on the ASCII letters only. */
  function Lower(s: string): (r: string)
    ensures |r| == |s|
    ensures forall i :: 0 <= i < |s| ==> r[i] == LowerChar(s[i])
    decreases |s|
  {
    if s == [] then [] else [LowerChar(s[0])] + Lower(s[1..])
  }

  /** Upper-casing, on the ASCII letters only. */
  function Upper(s: string): (r: string)
    ensures |r| == |s|
    ensures forall i :: 0 <= i < |s| ==> r[i] == UpperChar(s[i])
    decreases |s|
  {
    if s == [] then [] else [UpperChar(s[0])] + Upper(s[1..])
  }

  /** `a` and `b` differ at most in the case of ASCII letters. */
  predicate SameIgnoringCase(a: string, b: string) {
    |a| == |b| && forall i :: 0 <= i < |a| ==> LowerChar(a[i]) == LowerChar(b[i])
  }

  // ------------------------------------------------------------------ substrings

  /** String inclusion, searching from the left as `includes` does. */
  function Includes(s: string, sub: string): bool
    decreases |s|
  {
    if sub <= s then true
    else if s == [] then false
    else Includes(s[1..], sub)
  }

  /** `sub` occurs in `s` starting at index `i`. */
  predicate OccursAt(s: string, sub: string, i: int) {
    0 <= i && i + |sub| <= |s| && s[i..i + |sub|] == sub
  }

  /** `sub` occurs somewhere in `s`: the reference meaning of inclusion. */
  ghost predicate Occurs(s: string, sub: string) {
    exists i :: OccursAt(s, sub, i)
  }

  /** Whether some category, lower-cased, is included in `text`
      (the `some` over the category list). */
  function AnyIncluded(text: string, categories: seq<string>): bool
    decreases |categories|
  {
    if categories == [] then false
    else Includes(text, Lower(categories[0])) || AnyIncluded(text, categories[1..])
  }

  /** The sensitivity flag of a crime category. */
  function IsSensitive(category: string): bool {
    AnyIncluded(Lower(category), SensitiveCategories)
  }

  // ------------------------------------------------------------------ request handling

  /** The fields of the request body.  `crimeCategory` is `None` when the
      field is missing, null or not a string. */
  datatype VerifyRequest = VerifyRequest(reportId: string, imageUrl: string, verificationData: string, userId: string, crimeCategory: Option<string>)

  /** An inbound request: its HTTP method and its body, or the message of the
      error thrown while parsing the body as JSON. */
  datatype HttpRequest = HttpRequest(verb: string, body: Result<VerifyRequest, string>)

  /** The verification record the handler builds; it is neither stored nor
      returned, and the model exposes it only to relate it to the response. */
  datatype VerificationRecord = VerificationRecord(
    reportId: string, imageUrl: string, userId: string, clientCheck: string,
    crimeCategory: string, isSensitive: bool, needsHumanReview: bool,
    overallStatus: string, createdAt: string)

  /** Why a request failed. */
  datatype Failure =
    | BodyNotJson(message: string)   // the message thrown by the JSON parser
    | CategoryNotText                // lower-casing a non-string throws a TypeError

  datatype VerifyResponse =
    | PreflightOk                                                                  // body 'ok'
    | Verified(message: string, overallStatus: string, isSensitive: bool, nextStep: string)  // success: true
    | ServerError(cause: Failure)                                                  // success: false

  /** What the handler answers with, and the record it built, if any. */
  datatype Handled = Handled(response: VerifyResponse, record: Option<VerificationRecord>)

  /** HTTP status of a response. */
  function Status(r: VerifyResponse): int {
    match r
    case ServerError(_) => 500
    case _ => 200
  }

  /** The record for a request whose category is `category`, stamped `now`. */
  function Record(req: VerifyRequest, category: string, now: string): VerificationRecord {
    var sensitive := IsSensitive(category);
    VerificationRecord(req.reportId, req.imageUrl, req.userId, req.verificationData,
                       category, sensitive, sensitive,
                       if sensitive then NeedsReview else Approved, now)
  }

  /** The request handler; `now` is the current time as an ISO string. */
  function HandleVerifyImage(req: HttpRequest, now: string): (h: Handled)
    ensures req.verb == Preflight ==> h == Handled(PreflightOk, None)
    ensures req.verb != Preflight && req.body.Err? ==>
      h == Handled(ServerError(BodyNotJson(req.body.error)), None)
    ensures req.verb != Preflight && req.body.Ok? && req.body.value.crimeCategory.None? ==>
      h == Handled(ServerError(CategoryNotText), None)
    ensures req.verb != Preflight && req.body.Ok? && req.body.value.crimeCategory.Some? ==>
      var category := req.body.value.crimeCategory.value;
      && h.response.Verified? && h.record.Some?
      && h.response.message == Received
      && h.response.isSensitive == IsSensitive(category)
      && (h.response.overallStatus == NeedsReview <==> IsSensitive(category))
      && (h.response.overallStatus == Approved <==> !IsSensitive(category))
      && (h.response.nextStep == HumanModeration <==> IsSensitive(category))
      && (h.response.nextStep == Publish <==> !IsSensitive(category))
      && h.record.value.crimeCategory == category
      && h.record.value.createdAt == now
      && h.record.value.isSensitive == h.response.isSensitive
      && h.record.value.needsHumanReview == h.response.isSensitive
      && h.record.value.overallStatus == h.response.overallStatus
    ensures Status(h.response) == 500 <==>
      (req.verb != Preflight && (req.body.Err? || req.body.value.crimeCategory.None?))
  {
    if req.verb == Preflight then Handled(PreflightOk, None)
    else if req.body.Err? then Handled(ServerError(BodyNotJson(req.body.error)), None)
    else
      match req.body.value.crimeCategory
      case None => Handled(ServerError(CategoryNotText), None)
      case Some(category) =>
        var sensitive := IsSensitive(category);
        Handled(Verified(Received,
                         if sensitive then NeedsReview else Approved,
                         sensitive,
                         if sensitive then HumanModeration else Publish),
                Some(Record(req.body.value, category, now)))
  }

  // ------------------------------------------------------------------ lemmas: strings

  /** `Includes` finds exactly the occurrences the reference definition describes. */
  lemma {:induction false} IncludesIffOccurs(s: string, sub: string)
    ensures Includes(s, sub) <==> Occurs(s, sub)
    decreases |s|
  {
    if sub <= s {
      assert OccursAt(s, sub, 0);
    } else if s == [] {
      assert forall i :: !OccursAt(s, sub, i);
    } else {
      IncludesIffOccurs(s[1..], sub);
      if Occurs(s[1..], sub) {
        var i :| OccursAt(s[1..], sub, i);
        assert s[i + 1..i + 1 + |sub|] == s[1..][i..i + |sub|];
        assert OccursAt(s, sub, i + 1);
      }
      if Occurs(s, sub) {
        var i :| OccursAt(s, sub, i);
        assert i != 0;
        assert s[1..][i - 1..i - 1 + |sub|] == s[i..i + |sub|];
        assert OccursAt(s[1..], sub, i - 1);
      }
    }
  }

  /** An occurrence survives adding text on either side. */
  lemma OccursInContext(p: string, s: string, q: string, sub: string)
    requires Occurs(s, sub)
    ensures Occurs(p + s + q, sub)
  {
    var i :| OccursAt(s, sub, i);
    var t := p + s + q;
    assert t[|p| + i..|p| + i + |sub|] == s[i..i + |sub|];
    assert OccursAt(t, sub, |p| + i);
  }

  /** Lower-casing commutes with concatenation. */
  lemma LowerConcat(a: string, b: string)
    ensures Lower(a + b) == Lower(a) + Lower(b)
  {
    assert forall i :: 0 <= i < |a + b| ==> Lower(a + b)[i] == (Lower(a) + Lower(b))[i];
  }

  /** Lower-casing leaves a string without upper-case ASCII letters unchanged. */
  lemma LowerOfLowercase(s: string)
    requires forall i :: 0 <= i < |s| ==> !('A' <= s[i] <= 'Z')
    ensures Lower(s) == s
  {
  }

  /** Strings equal up to ASCII case lower-case to the same string. */
  lemma LowerIgnoresCase(a: string, b: string)
    requires SameIgnoringCase(a, b)
    ensures Lower(a) == Lower(b)
  {
  }

  /** Upper-casing changes only the case of letters. */
  lemma UpperSameIgnoringCase(s: string)
    ensures SameIgnoringCase(s, Upper(s))
  {
    forall i | 0 <= i < |s|
      ensures LowerChar(s[i]) == LowerChar(Upper(s)[i])
    {
      var c := s[i];
      if 'a' <= c <= 'z' {
        assert Upper(s)[i] == (c as int - 32) as char;
      }
    }
  }

  // ------------------------------------------------------------------ lemmas: classification

  /** The categories are already lower case and none is empty. */
  lemma CategoriesLowercase()
    ensures forall k :: k in SensitiveCategories ==> Lower(k) == k && k != []
  {
    forall k | k in SensitiveCategories
      ensures Lower(k) == k && k != []
    {
      LowerOfLowercase(k);
    }
  }

  /** The `some` over a list finds exactly the lower-cased members included in the text. */
  lemma {:induction false} AnyIncludedIff(text: string, categories: seq<string>)
    ensures AnyIncluded(text, categories) <==>
      exists k :: k in categories && Includes(text, Lower(k))
    decreases |categories|
  {
    if categories != [] {
      AnyIncludedIff(text, categories[1..]);
      if Includes(text, Lower(categories[0])) {
        assert categories[0] in categories;
      } else if AnyIncluded(text, categories[1..]) {
        var k :| k in categories[1..] && Includes(text, Lower(k));
        assert k in categories;
      }
      if exists k :: k in categories && Includes(text, Lower(k)) {
        var k :| k in categories && Includes(text, Lower(k));
        if k != categories[0] {
          assert k in categories[1..];
        }
      }
    }
  }

  /** A category is sensitive iff one of the five keywords occurs in it once lower-cased. */
  lemma SensitiveIff(category: string)
    ensures IsSensitive(category) <==>
      exists k :: k in SensitiveCategories && Occurs(Lower(category), k)
  {
    AnyIncludedIff(Lower(category), SensitiveCategories);
    CategoriesLowercase();
    forall k | k in SensitiveCategories
      ensures Includes(Lower(category), Lower(k)) <==> Occurs(Lower(category), k)
    {
      IncludesIffOccurs(Lower(category), k);
    }
  }

  /** Changing the case of ASCII letters does not change the classification. */
  lemma SensitiveIgnoresCase(a: string, b: string)
    requires SameIgnoringCase(a, b)
    ensures IsSensitive(a) == IsSensitive(b)
  {
    LowerIgnoresCase(a, b);
  }

  /** An upper-cased category is classified as the original. */
  lemma SensitiveOfUpper(category: string)
    ensures IsSensitive(Upper(category)) == IsSensitive(category)
  {
    UpperSameIgnoringCase(category);
    SensitiveIgnoresCase(category, Upper(category));
  }

  /** Adding text before or after a sensitive category keeps it sensitive. */
  lemma SensitiveInContext(p: string, category: string, q: string)
    requires IsSensitive(category)
    ensures IsSensitive(p + category + q)
  {
    SensitiveIff(category);
    var k :| k in SensitiveCategories && Occurs(Lower(category), k);
    LowerConcat(p + category, q);
    LowerConcat(p, category);
    OccursInContext(Lower(p), Lower(category), Lower(q), k);
    SensitiveIff(p + category + q);
  }

  /** No keyword is empty, so the empty category is not sensitive. */
  lemma EmptyNotSensitive()
    ensures !IsSensitive("")
  {
    SensitiveIff("");
    CategoriesLowercase();
    forall k | k in SensitiveCategories
      ensures !Occurs(Lower(""), k)
    {
      assert forall i :: !OccursAt(Lower(""), k, i);
    }
  }

  /** A category in which a keyword occurs, once lower-cased, is sensitive. */
  lemma SensitiveWhenOccurs(category: string, k: string, i: int)
    requires k in SensitiveCategories && OccursAt(Lower(category), k, i)
    ensures IsSensitive(category)
  {
    SensitiveIff(category);
  }

  /** A mixed-case report naming a murder is sensitive. */
  lemma SampleMurderCase()
    ensures IsSensitive("Murder Case")
  {
    var s := "Murder Case";
    var t := Lower(s);
    assert t[0] == 'm' && t[1] == 'u' && t[2] == 'r' && t[3] == 'd' && t[4] == 'e' && t[5] == 'r';
    assert t[..6] == "murder";
    SensitiveWhenOccurs(s, "murder", 0);
  }

  /** A theft report is not sensitive: every keyword is longer than it. */
  lemma SampleTheft()
    ensures !IsSensitive("theft")
  {
    var t := Lower("theft");
    assert |t| == 5;
    assert forall j :: 0 <= j < |SensitiveCategories| ==> |SensitiveCategories[j]| > 5;
    forall k | k in SensitiveCategories
      ensures !Occurs(t, k)
    {
      assert |k| > 5;
    }
    SensitiveIff("theft");
  }
}
