/**
 * The three checks that decide whether a message qualifies for forwarding:
 * the configuration gate, the allow-list of senders and the keyword filter.
 */
module Filtering {
  import opened Wrappers
  import opened Text
  import opened Settings

  /** `_check_config`: a server address and a token that are not blank after
    * stripping, and at least one monitored user. A missing key counts as
    * empty. */
  function CheckConfig(c: Config): (ok: bool)
    ensures ok <==> !IsBlank(Server(c)) && !IsBlank(Token(c)) && |Users(c)| > 0
  {
    var server := Strip(Server(c));
    var token := Strip(Token(c));
    if server == [] || token == [] then false
    else if |Users(c)| == 0 then false
    else true
  }

  /** `_is_monitored_user`: the sender id equals the string form of some
    * entry of `monitored_users`; never true when the list is missing or
    * empty. */
  function IsMonitoredUser(c: Config, senderId: string): (ok: bool)
    ensures ok <==> exists i :: 0 <= i < |Users(c)| && EntryString(Users(c)[i]) == senderId
    ensures Users(c) == [] ==> !ok
  {
    senderId in EntryStrings(Users(c))
  }

  /** A numeric entry matches exactly the sender ids that spell out its
    * decimal form, and no other. */
  lemma NumericEntryMatchesItsDecimalForm(c: Config, n: int, senderId: string)
    requires Users(c) == [NumericId(n)]
    ensures IsMonitoredUser(c, senderId) <==> senderId == IntToString(n)
  {
    assert EntryString(Users(c)[0]) == IntToString(n);
  }

  /** Case-insensitive substring test of one keyword against the text. */
  predicate Matches(text: string, keyword: string) {
    Contains(Lower(text), Lower(keyword))
  }

  /** Some keyword of `keywords` matches `text`. */
  predicate AnyMatches(keywords: seq<string>, text: string) {
    exists i :: 0 <= i < |keywords| && Matches(text, keywords[i])
  }

  /** What `_should_forward_message` decides: with filtering off, everything
    * passes; with it on, no exclude keyword may match, and when include
    * keywords are given one of them must match. */
  predicate Forwards(f: FilterSettings, text: string) {
    !FilterEnabled(f) ||
    (!AnyMatches(ExcludeKeywords(f), text) &&
     (IncludeKeywords(f) == [] || AnyMatches(IncludeKeywords(f), text)))
  }

  /** `_should_forward_message`: the exclude keywords are tried first, in
    * order, then the include keywords. */
  method ShouldForwardMessage(c: Config, text: string) returns (ok: bool)
    ensures ok == Forwards(FilterOf(c), text)
  {
    var f := FilterOf(c);
    if !FilterEnabled(f) {
      return true;
    }
    var lowered := Lower(text);
    var excludes := ExcludeKeywords(f);
    for i := 0 to |excludes|
      invariant forall j :: 0 <= j < i ==> !Matches(text, excludes[j])
    {
      if Contains(lowered, Lower(excludes[i])) {
        return false;
      }
    }
    var includes := IncludeKeywords(f);
    if includes != [] {
      for i := 0 to |includes|
        invariant forall j :: 0 <= j < i ==> !Matches(text, includes[j])
      {
        if Contains(lowered, Lower(includes[i])) {
          return true;
        }
      }
      return false;
    }
    return true;
  }

  /** With `enable_filter` absent or false, every text passes. */
  lemma DisabledFilterPassesEverything(f: FilterSettings, text: string)
    requires !FilterEnabled(f)
    ensures Forwards(f, text)
  {
  }

  /** An exclude keyword that matches rejects the text even when an include
    * keyword matches too. */
  lemma ExcludeWinsOverInclude(f: FilterSettings, text: string, k: nat)
    requires FilterEnabled(f)
    requires k < |ExcludeKeywords(f)| && Matches(text, ExcludeKeywords(f)[k])
    ensures !Forwards(f, text)
  {
  }

  /** With filtering on and no exclude keyword matching, the text passes
    * exactly when the include list is empty or one of its keywords matches. */
  lemma IncludeDecidesWithoutExcludeMatch(f: FilterSettings, text: string)
    requires FilterEnabled(f) && !AnyMatches(ExcludeKeywords(f), text)
    ensures Forwards(f, text) <==> IncludeKeywords(f) == [] || AnyMatches(IncludeKeywords(f), text)
  {
  }

  /** An empty exclude keyword occurs in every text, so it rejects them all;
    * an empty include keyword likewise admits every text no exclude keyword
    * rejects. */
  lemma EmptyKeywordMatchesEverything(f: FilterSettings, text: string)
    requires FilterEnabled(f)
    ensures "" in ExcludeKeywords(f) ==> !Forwards(f, text)
    ensures "" in IncludeKeywords(f) && !AnyMatches(ExcludeKeywords(f), text) ==> Forwards(f, text)
  {
    EmptyOccursEverywhere(Lower(text));
    assert Lower("") == "";
  }

  /** Matching ignores ASCII case: lower-casing the text first gives the
    * same decision. */
  lemma FilterIgnoresCase(f: FilterSettings, text: string)
    ensures Forwards(f, Lower(text)) == Forwards(f, text)
  {
    LowerIsIdempotent(text);
  }
}
