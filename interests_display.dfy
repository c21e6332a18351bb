/**
 * The "Interests selected" line: the stored selection read back, and the
 * text it is shown as.
 */
module InterestsDisplay {
  import opened Wrappers
  import opened JsStrings

  /** What `JSON.parse` makes of the stored text: a failure, an array, or any other value. */
  datatype Parsed = ParseFailure | ParsedArray(items: seq<string>) | ParsedOther

  /**
   * The list the mount effect leaves: the parsed array when the key holds a
   * non-empty text that parses to one; otherwise the empty list.
   * `stored` is `getItem('selectedInterests')`, `parse` stands for `JSON.parse`.
   */
  function LoadInterests(inBrowser: bool, stored: Option<string>, parse: string -> Parsed): (interests: seq<string>)
    ensures interests != [] ==> inBrowser && Truthy(stored) && parse(stored.value) == ParsedArray(interests)
    ensures inBrowser && Truthy(stored) && parse(stored.value).ParsedArray? ==> interests == parse(stored.value).items
  {
    if inBrowser && Truthy(stored) then
      match parse(stored.value)
      case ParsedArray(items) => items
      case ParsedOther => []
      case ParseFailure => []
    else []
  }

  /**
   * The text shown: the interests joined with ", ". It can be read back:
   * split on ',' and trimmed, it gives the interests again when they are
   * trimmed and contain no comma.
   */
  function DisplayText(interests: seq<string>): (text: string)
    ensures PlainTopics(interests) ==>
      var pieces := Split(text, ',');
      |pieces| == |interests| && forall i :: 0 <= i < |pieces| ==> Trim(pieces[i]) == interests[i]
  {
    JoinedTopicsReadBack(interests);
    Join(interests, ", ")
  }

  /** At least one topic, and every topic trimmed and free of commas. */
  predicate PlainTopics(interests: seq<string>) {
    |interests| >= 1 && forall i :: 0 <= i < |interests| ==> ',' !in interests[i] && IsTrimmed(interests[i])
  }

  /** The component returns `null`, rendering nothing, exactly when the list is empty. */
  predicate RendersNothing(interests: seq<string>) {
    |interests| == 0
  }

  /** A missing key, a failed parse and a non-array all give the empty list, so nothing shows. */
  lemma FallbacksShowNothing(stored: Option<string>, parse: string -> Parsed)
    requires !Truthy(stored) || !parse(stored.value).ParsedArray?
    ensures LoadInterests(true, stored, parse) == []
    ensures RendersNothing(LoadInterests(true, stored, parse))
  {
  }

  /** The read-back of a ", "-joined list of plain topics. */
  lemma {:induction false} JoinedTopicsReadBack(interests: seq<string>)
    ensures PlainTopics(interests) ==>
      var pieces := Split(Join(interests, ", "), ',');
      |pieces| == |interests| && forall i :: 0 <= i < |pieces| ==> Trim(pieces[i]) == interests[i]
  {
    if PlainTopics(interests) {
      SplitCommaSpaceJoin(interests);
      var pieces := Split(Join(interests, ", "), ',');
      forall i | 0 <= i < |pieces|
        ensures Trim(pieces[i]) == interests[i]
      {
        if i > 0 {
          LeadingBlankTrimmed(interests[i]);
        }
      }
    }
  }
}
