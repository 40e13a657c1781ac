/**
 * The tenant's property concierge: a keyword scorer over the property's
 * knowledge base that answers with the best-scoring entry, and the chat
 * transcript it appends to.
 */
module Concierge {
  import opened Wrappers
  import opened Text

  /** A row of `property_knowledge_base`. */
  datatype KnowledgeItem = KnowledgeItem(category: string, topic: string, content: string)

  const Fallback := "I'm sorry, I don't have information about that yet. You might want to contact your landlord directly or check the community forum."

  // ---------------------------------------------------------------- scoring

  /** What one query word earns: only words longer than three characters, 10 in the topic and 5 in the content. */
  function WordPoints(w: string, topic: string, content: string): (n: nat)
    ensures n <= 15
    ensures |w| <= 3 ==> n == 0
  {
    if |w| > 3 then (if Contains(topic, w) then 10 else 0) + (if Contains(content, w) then 5 else 0) else 0
  }

  /** The points of all query words. */
  function WordScore(words: seq<string>, topic: string, content: string): (n: nat)
    ensures n <= 15 * |words|
  {
    if words == [] then 0
    else WordScore(words[..|words| - 1], topic, content) + WordPoints(words[|words| - 1], topic, content)
  }

  /**
   * The score of an entry for an already lower-cased query: 50 when the query
   * contains the topic, 20 when it contains the category, plus the word points,
   * all compared in lower case.
   */
  function ItemScore(lowerQuery: string, item: KnowledgeItem): (n: nat)
    ensures n <= 70 + 15 * |SplitWs(lowerQuery)|
  {
    var topic := Lower(item.topic);
    var category := Lower(item.category);
    var content := Lower(item.content);
    (if Contains(lowerQuery, topic) then 50 else 0)
    + (if Contains(lowerQuery, category) then 20 else 0)
    + WordScore(SplitWs(lowerQuery), topic, content)
  }

  /** An entry with an empty topic earns the topic bonus for every query. */
  lemma EmptyTopicAlwaysMatches(lowerQuery: string, item: KnowledgeItem)
    requires item.topic == []
    ensures ItemScore(lowerQuery, item) >= 50
  {
  }

  /** Scores do not depend on the case the query was typed in. */
  lemma QueryCaseIgnored(query: string, item: KnowledgeItem)
    ensures ItemScore(Lower(Upper(query)), item) == ItemScore(Lower(query), item)
  {
    LowerOfUpper(query);
  }

  /** The scoring loop for one entry. */
  method Score(lowerQuery: string, item: KnowledgeItem) returns (score: nat)
    ensures score == ItemScore(lowerQuery, item)
  {
    var topic := Lower(item.topic);
    var category := Lower(item.category);
    var content := Lower(item.content);
    score := 0;
    if Contains(lowerQuery, topic) {
      score := score + 50;
    }
    if Contains(lowerQuery, category) {
      score := score + 20;
    }
    var words := SplitWs(lowerQuery);
    var base := score;
    var i := 0;
    while i < |words|
      invariant 0 <= i <= |words|
      invariant score == base + WordScore(words[..i], topic, content)
    {
      var word := words[i];
      assert words[..i + 1][..i] == words[..i];
      if |word| > 3 {
        if Contains(topic, word) {
          score := score + 10;
        }
        if Contains(content, word) {
          score := score + 5;
        }
      }
      i := i + 1;
    }
    assert words[..i] == words;
  }

  // ---------------------------------------------------------------- answers

  /** Entry `i` has the highest score, and every entry before it scores strictly less. */
  predicate FirstBest(lowerQuery: string, kb: seq<KnowledgeItem>, i: int) {
    && 0 <= i < |kb|
    && (forall j :: 0 <= j < |kb| ==> ItemScore(lowerQuery, kb[j]) <= ItemScore(lowerQuery, kb[i]))
    && (forall j :: 0 <= j < i ==> ItemScore(lowerQuery, kb[j]) < ItemScore(lowerQuery, kb[i]))
  }

  /** There is only one first best entry. */
  lemma FirstBestUnique(lowerQuery: string, kb: seq<KnowledgeItem>, i: int, j: int)
    requires FirstBest(lowerQuery, kb, i) && FirstBest(lowerQuery, kb, j)
    ensures i == j
  {
    assert ItemScore(lowerQuery, kb[i]) == ItemScore(lowerQuery, kb[j]);
  }

  /**
   * `reply` answers `query`: the content of the first best entry when some
   * entry scores above 10, and the fallback sentence otherwise (in particular
   * for an empty knowledge base).
   */
  predicate IsReply(query: string, kb: seq<KnowledgeItem>, reply: string) {
    && ((forall j :: 0 <= j < |kb| ==> ItemScore(Lower(query), kb[j]) <= 10) ==> reply == Fallback)
    && ((exists j :: 0 <= j < |kb| && ItemScore(Lower(query), kb[j]) > 10) ==>
          exists i :: 0 <= i < |kb| && FirstBest(Lower(query), kb, i) && reply == kb[i].content)
  }

  /** `findBestResponse`: one pass keeping the first strictly higher score. */
  method FindBestResponse(query: string, kb: seq<KnowledgeItem>) returns (reply: string)
    ensures IsReply(query, kb, reply)
  {
    var lowerQuery := Lower(query);
    var bestMatch: Option<KnowledgeItem> := None;
    var highestScore := 0;
    ghost var bestAt := 0;
    var i := 0;
    while i < |kb|
      invariant 0 <= i <= |kb|
      invariant bestMatch.None? ==> highestScore == 0
      invariant bestMatch.Some? ==>
        && 0 <= bestAt < i && bestMatch.value == kb[bestAt]
        && highestScore == ItemScore(lowerQuery, kb[bestAt]) > 0
        && forall j :: 0 <= j < bestAt ==> ItemScore(lowerQuery, kb[j]) < highestScore
      invariant forall j :: 0 <= j < i ==> ItemScore(lowerQuery, kb[j]) <= highestScore
    {
      var score := Score(lowerQuery, kb[i]);
      if score > highestScore {
        highestScore := score;
        bestMatch := Some(kb[i]);
        bestAt := i;
      }
      i := i + 1;
    }
    if bestMatch.Some? && highestScore > 10 {
      reply := bestMatch.value.content;
      assert FirstBest(lowerQuery, kb, bestAt);
    } else {
      reply := Fallback;
    }
  }

  // ------------------------------------------------------------------- chat

  datatype Role = Bot | User

  datatype ChatMessage = ChatMessage(role: Role, content: string)

  const Greeting := ChatMessage(Bot, "Hello! I'm your AI Property Concierge. Ask me anything about your home, rules, or amenities!")

  class ConciergePage {
    var knowledgeBase: seq<KnowledgeItem>
    var messages: seq<ChatMessage>
    var input: string
    var isTyping: bool
    /** The question the pending reply answers. */
    var pending: string

    /** The transcript opens with the greeting, and while a reply is pending the last message is the question. */
    predicate Valid()
      reads this
    {
      && |messages| >= 1 && messages[0] == Greeting
      && (isTyping ==> messages[|messages| - 1] == ChatMessage(User, pending))
    }

    constructor (kb: seq<KnowledgeItem>)
      ensures knowledgeBase == kb && messages == [Greeting] && input == "" && !isTyping
      ensures Valid()
    {
      knowledgeBase := kb;
      messages := [Greeting];
      input := "";
      isTyping := false;
      pending := "";
    }

    /** `handleSend` (and the Send button, disabled under the same condition): post the trimmed question. */
    method Send()
      modifies this
      ensures IsBlank(old(input)) || old(isTyping) ==> unchanged(this)
      ensures !IsBlank(old(input)) && !old(isTyping) ==>
        && messages == old(messages) + [ChatMessage(User, Trim(old(input)))]
        && input == "" && isTyping && pending == Trim(old(input))
        && knowledgeBase == old(knowledgeBase)
      ensures old(Valid()) ==> Valid()
    {
      var userMsg := Trim(input);
      TrimEmptyIffBlank(input);
      if userMsg == [] || isTyping {
        return;
      }
      var posted := messages + [ChatMessage(User, userMsg)];
      assert |messages| >= 1 ==> posted[0] == messages[0];
      assert posted[|posted| - 1] == ChatMessage(User, userMsg);
      input := "";
      messages := posted;
      isTyping := true;
      pending := userMsg;
    }

    /** The delayed callback of `handleSend`: post the answer to the pending question. */
    method ReplyArrives()
      modifies this
      ensures !old(isTyping) ==> unchanged(this)
      ensures old(isTyping) ==>
        && |messages| == |old(messages)| + 1 && messages[..|old(messages)|] == old(messages)
        && messages[|messages| - 1].role == Bot
        && IsReply(pending, knowledgeBase, messages[|messages| - 1].content)
        && !isTyping && input == old(input) && pending == old(pending) && knowledgeBase == old(knowledgeBase)
      ensures old(Valid()) ==> Valid()
    {
      if !isTyping {
        return;
      }
      var botResponse := FindBestResponse(pending, knowledgeBase);
      messages := messages + [ChatMessage(Bot, botResponse)];
      isTyping := false;
    }
  }
}
