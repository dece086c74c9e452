/**
 * The assertion helper of `src/core/assertions.py`. Each check compares once and
 * either passes or fails with a message; the message is the caller's own text when
 * one is given, and otherwise the structured details of the default message.
 */
module Assertions {
  import opened Wrappers
  import opened Strings

  /** The failure text: a truthy custom message, or the default built from `detail`. */
  datatype Message<+D> = Custom(text: string) | Default(detail: D)

  /** What the default messages of the equality and membership checks report. */
  datatype ValueDetail<+T> =
    | NotEqual(expected: T, actual: T)
    | UnexpectedlyEqual(value: T)
    | ItemNotFound(item: T, items: seq<T>)

  /** What the default message of `assert_contains` reports. */
  datatype TextDetail = SubstringNotFound(substring: string, text: string, caseSensitive: bool)

  /** What the default messages of the numeric checks report. */
  datatype NumericDetail =
    | NotGreaterThan(actual: real, threshold: real, difference: real)
    | NotLessThan(actual: real, threshold: real, difference: real)
    | ResponseTimeExceeded(actualMs: real, maxMs: real, exceededBy: real)

  /** `assert_status_code` has no custom message; it shows the body only when there is one. */
  datatype StatusDetail = StatusCodeMismatch(expected: int, actual: int, responseBody: Option<string>)

  /** `message or default`: an absent or empty custom message falls back to the default. */
  function ChooseMessage<D>(custom: Option<string>, detail: D): (m: Message<D>)
    ensures m.Custom? <==> custom.Some? && custom.value != ""
    ensures m.Custom? ==> m.text == custom.value
    ensures m.Default? ==> m.detail == detail
  {
    if custom.Some? && custom.value != "" then Custom(custom.value) else Default(detail)
  }

  function AssertEquals<T(==)>(actual: T, expected: T, message: Option<string> := None)
    : (r: Outcome<Message<ValueDetail<T>>>)
    ensures r.Pass? <==> actual == expected
    ensures r.Fail? ==> r.error == ChooseMessage(message, NotEqual(expected, actual))
  {
    if actual != expected then Fail(ChooseMessage(message, NotEqual(expected, actual))) else Pass
  }

  function AssertNotEquals<T(==)>(actual: T, notExpected: T, message: Option<string> := None)
    : (r: Outcome<Message<ValueDetail<T>>>)
    ensures r.Pass? <==> actual != notExpected
    ensures r.Fail? ==> r.error == ChooseMessage(message, UnexpectedlyEqual(actual))
  {
    if actual == notExpected then Fail(ChooseMessage(message, UnexpectedlyEqual(actual))) else Pass
  }

  /** Substring search; without case sensitivity both operands are lower-cased first. */
  function AssertContains(text: string, substring: string, caseSensitive: bool := true,
                          message: Option<string> := None)
    : (r: Outcome<Message<TextDetail>>)
    ensures caseSensitive ==> (r.Pass? <==> IsSubstring(substring, text))
    ensures !caseSensitive ==> (r.Pass? <==> IsSubstring(Lower(substring), Lower(text)))
    ensures r.Fail? ==> r.error == ChooseMessage(message, SubstringNotFound(substring, text, caseSensitive))
  {
    var searchText := if caseSensitive then text else Lower(text);
    var searchSubstring := if caseSensitive then substring else Lower(substring);
    if !IsSubstring(searchSubstring, searchText) then
      Fail(ChooseMessage(message, SubstringNotFound(substring, text, caseSensitive)))
    else Pass
  }

  function AssertListContains<T(==)>(items: seq<T>, item: T, message: Option<string> := None)
    : (r: Outcome<Message<ValueDetail<T>>>)
    ensures r.Pass? <==> item in items
    ensures r.Fail? ==> r.error == ChooseMessage(message, ItemNotFound(item, items))
  {
    if item !in items then Fail(ChooseMessage(message, ItemNotFound(item, items))) else Pass
  }

  /** Strict: a value equal to the threshold fails. */
  function AssertGreaterThan(actual: real, threshold: real, message: Option<string> := None)
    : (r: Outcome<Message<NumericDetail>>)
    ensures r.Pass? <==> actual > threshold
    ensures r.Fail? ==> r.error == ChooseMessage(message, NotGreaterThan(actual, threshold, actual - threshold))
  {
    if actual <= threshold then Fail(ChooseMessage(message, NotGreaterThan(actual, threshold, actual - threshold)))
    else Pass
  }

  /** Strict: a value equal to the threshold fails. */
  function AssertLessThan(actual: real, threshold: real, message: Option<string> := None)
    : (r: Outcome<Message<NumericDetail>>)
    ensures r.Pass? <==> actual < threshold
    ensures r.Fail? ==> r.error == ChooseMessage(message, NotLessThan(actual, threshold, actual - threshold))
  {
    if actual >= threshold then Fail(ChooseMessage(message, NotLessThan(actual, threshold, actual - threshold)))
    else Pass
  }

  /** The body is attached to the failure only when it is present and non-empty. */
  function AssertStatusCode(actualStatus: int, expectedStatus: int, responseBody: Option<string> := None)
    : (r: Outcome<StatusDetail>)
    ensures r.Pass? <==> actualStatus == expectedStatus
    ensures r.Fail? ==> r.error.expected == expectedStatus && r.error.actual == actualStatus
    ensures r.Fail? ==> (r.error.responseBody.Some? <==> responseBody.Some? && responseBody.value != "")
    ensures r.Fail? && r.error.responseBody.Some? ==> r.error.responseBody == responseBody
  {
    if actualStatus != expectedStatus then
      Fail(StatusCodeMismatch(expectedStatus, actualStatus,
                              if responseBody.Some? && responseBody.value != "" then responseBody else None))
    else Pass
  }

  /** Not strict: a time equal to the limit passes. */
  function AssertResponseTime(actualTimeMs: real, maxTimeMs: real, message: Option<string> := None)
    : (r: Outcome<Message<NumericDetail>>)
    ensures r.Pass? <==> actualTimeMs <= maxTimeMs
    ensures r.Fail? ==> r.error == ChooseMessage(message, ResponseTimeExceeded(actualTimeMs, maxTimeMs, actualTimeMs - maxTimeMs))
  {
    if actualTimeMs > maxTimeMs then
      Fail(ChooseMessage(message, ResponseTimeExceeded(actualTimeMs, maxTimeMs, actualTimeMs - maxTimeMs)))
    else Pass
  }

  /** A failing greater-than check reports a difference that is not positive. */
  lemma GreaterThanDifference(actual: real, threshold: real)
    requires AssertGreaterThan(actual, threshold, None).Fail?
    ensures AssertGreaterThan(actual, threshold, None).error.detail.difference <= 0.0
  {
  }

  /** The two strict comparisons mirror each other, and each fails on equality. */
  lemma StrictComparisonsMirror(a: real, b: real, m: Option<string>)
    ensures AssertGreaterThan(a, b, m).Pass? <==> AssertLessThan(b, a, m).Pass?
    ensures AssertGreaterThan(a, a, m).Fail? && AssertLessThan(a, a, m).Fail?
  {
  }

  /** The response-time check passes exactly where the strict greater-than check fails. */
  lemma ResponseTimeIsNotGreater(actual: real, max: real, m: Option<string>)
    ensures AssertResponseTime(actual, max, m).Pass? <==> AssertGreaterThan(actual, max, m).Fail?
    ensures AssertResponseTime(max, max, m).Pass?
  {
  }

  /** Whatever check fails, a non-empty custom message is the failure text. */
  lemma CustomMessageWins<T>(actual: T, expected: T, text: string)
    requires text != "" && actual != expected
    ensures AssertEquals(actual, expected, Some(text)) == Fail(Custom(text))
    ensures AssertListContains([], actual, Some(text)) == Fail(Custom(text))
    ensures AssertNotEquals(actual, actual, Some(text)) == Fail(Custom(text))
  {
  }

  /** An empty custom message is falsy, so the default message is used. */
  lemma EmptyCustomMessageFallsBack(actual: real, threshold: real)
    requires actual <= threshold
    ensures AssertGreaterThan(actual, threshold, Some("")).error.Default?
  {
  }

  /** Equality is case-sensitive on strings; containment can be made case-insensitive. */
  lemma CaseExamples()
    ensures AssertEquals("KIX", "kix", None).Fail?
    ensures AssertContains("Tokyo Intl", "tokyo", false, None).Pass?
    ensures AssertContains("Tokyo Intl", "tokyo", true, None).Fail?
  {
    assert Lower("Tokyo Intl")[0..5] == Lower("tokyo");
    SubstringAt(Lower("tokyo"), Lower("Tokyo Intl"), 0);
    NotSubstringByFirstChar("tokyo", "Tokyo Intl");
  }

  /** Every case-sensitive pass is also a case-insensitive pass. */
  lemma CaseSensitivePassImpliesInsensitive(text: string, substring: string, m: Option<string>)
    requires AssertContains(text, substring, true, m).Pass?
    ensures AssertContains(text, substring, false, m).Pass?
  {
    SubstringSurvivesLower(substring, text);
  }

  /** The case-insensitive check does not depend on the case of either operand. */
  lemma InsensitiveIgnoresCase(text: string, substring: string, m: Option<string>)
    ensures AssertContains(text, substring, false, m).Pass?
        <==> AssertContains(Upper(text), Lower(substring), false, m).Pass?
  {
    FoldingForgetsCase(text);
    FoldingForgetsCase(substring);
  }

  /** Boundary examples: 5 is not greater than 5, 5.01 is. */
  lemma GreaterThanExamples()
    ensures AssertGreaterThan(5.0, 5.0, None).Fail?
    ensures AssertGreaterThan(5.01, 5.0, None).Pass?
  {
  }
}
