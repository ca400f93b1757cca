/** The support chatbot (src/components/Chatbot.tsx): a first-match-wins
    keyword matcher over the lowercased message, and the append-only
    message list it feeds. */
module Chatbot {

  /** ASCII lowercasing of one character. */
  function LowerChar(c: char): char {
    if 'A' <= c <= 'Z' then (c as int + 32) as char else c
  }

  /** `toLowerCase`, restricted to ASCII letters. */
  function ToLower(s: string): (r: string)
    ensures |r| == |s|
    ensures forall i :: 0 <= i < |s| ==> r[i] == LowerChar(s[i])
  {
    seq(|s|, i requires 0 <= i < |s| => LowerChar(s[i]))
  }

  lemma ToLowerIdempotent(s: string)
    ensures ToLower(ToLower(s)) == ToLower(s)
  {
  }

  /** `text.includes(word)`, scanning from the left. */
  predicate Contains(text: string, word: string)
    decreases |text|
  {
    |word| <= |text| && (text[..|word|] == word || Contains(text[1..], word))
  }

  /** `word` occurs at position `i` of `text`. */
  predicate OccursAt(text: string, word: string, i: int) {
    0 <= i && i + |word| <= |text| && text[i..i + |word|] == word
  }

  /** The scan finds a word exactly when it occurs somewhere. */
  lemma {:induction false} ContainsIffOccurs(text: string, word: string)
    ensures Contains(text, word) <==> exists i :: OccursAt(text, word, i)
    decreases |text|
  {
    if |word| <= |text| && text[..|word|] == word {
      assert OccursAt(text, word, 0);
    } else if |word| <= |text| {
      ContainsIffOccurs(text[1..], word);
      forall i | OccursAt(text, word, i)
        ensures Contains(text[1..], word)
      {
        assert i != 0;
        assert text[1..][i - 1..i - 1 + |word|] == text[i..i + |word|];
        assert OccursAt(text[1..], word, i - 1);
      }
      if Contains(text[1..], word) {
        var i :| OccursAt(text[1..], word, i);
        assert text[1..][i..i + |word|] == text[i + 1..i + 1 + |word|];
        assert OccursAt(text, word, i + 1);
      }
    }
  }

  /** Some word of the group occurs in the text. */
  predicate MatchesAny(text: string, words: seq<string>)
    decreases |words|
  {
    |words| > 0 && (Contains(text, words[0]) || MatchesAny(text, words[1..]))
  }

  const Greeting := "Hello! How can I help you with Value M's cloud services today?"
  const AwsReply := "Value M provides comprehensive AWS services including migration, optimization, and managed services. Would you like to know more?"
  const AzureReply := "Our Azure cloud solutions help businesses leverage Microsoft's cloud platform for maximum efficiency and scalability."
  const GoogleReply := "Value M's Google Cloud experts can help you implement and optimize GCP services for your business needs."
  const SalesforceReply := "We offer end-to-end Salesforce implementation, customization, and support services to maximize your CRM effectiveness."
  const OracleReply := "Value M provides Oracle Cloud Infrastructure services to help you migrate and optimize your applications in the Oracle Cloud."
  const ServicesReply := "Value M offers cloud services across AWS, Azure, Google Cloud, Salesforce, and Oracle. How can we assist you with your cloud needs?"
  const ContactReply := "You can reach our team at contact@valuemtcc.com or visit our website at www.valuemtcc.com for more information."
  const FallbackReply := "I'm here to help with any questions about Value M's cloud services. We specialize in AWS, Azure, Google Cloud, Salesforce, and Oracle solutions. What would you like to know?"

  /** `generateBotResponse`: lowercase the message, then pick the reply; the
      reply is always one of the nine fixed texts. */
  function GenerateReply(message: string): (r: string)
    ensures r in Replies
  {
    ReplyToLowered(ToLower(message))
  }

  /** The checks of `generateBotResponse` on the lowercased message, in
      source order; the first hit wins. */
  function ReplyToLowered(m: string): (r: string)
    ensures r in Replies
  {
    if Contains(m, "hello") || Contains(m, "hi") then Greeting
    else if Contains(m, "aws") || Contains(m, "amazon") then AwsReply
    else if Contains(m, "azure") || Contains(m, "microsoft") then AzureReply
    else if Contains(m, "google") || Contains(m, "gcp") then GoogleReply
    else if Contains(m, "salesforce") then SalesforceReply
    else if Contains(m, "oracle") then OracleReply
    else if Contains(m, "service") || Contains(m, "help") || Contains(m, "support") then ServicesReply
    else if Contains(m, "contact") || Contains(m, "speak") then ContactReply
    else FallbackReply
  }

  /** The keyword groups as a table, in priority order. */
  const KeywordGroups: seq<seq<string>> := [
    ["hello", "hi"], ["aws", "amazon"], ["azure", "microsoft"], ["google", "gcp"],
    ["salesforce"], ["oracle"], ["service", "help", "support"], ["contact", "speak"]]

  /** The reply for each group, then the fallback. */
  const Replies: seq<string> := [
    Greeting, AwsReply, AzureReply, GoogleReply, SalesforceReply,
    OracleReply, ServicesReply, ContactReply, FallbackReply]

  /** Index of the first group with a word in the text, or the number of
      groups when none matches. */
  function FirstMatch(text: string, groups: seq<seq<string>>): (k: nat)
    ensures k <= |groups|
    ensures k < |groups| ==> MatchesAny(text, groups[k])
    ensures forall j :: 0 <= j < k ==> !MatchesAny(text, groups[j])
    decreases |groups|
  {
    if groups == [] then 0
    else if MatchesAny(text, groups[0]) then 0
    else 1 + FirstMatch(text, groups[1..])
  }

  lemma MatchesTwo(text: string, a: string, b: string)
    ensures MatchesAny(text, [a, b]) <==> Contains(text, a) || Contains(text, b)
  {
    assert [a, b][1..] == [b];
    MatchesOne(text, b);
  }

  lemma MatchesOne(text: string, a: string)
    ensures MatchesAny(text, [a]) <==> Contains(text, a)
  {
    assert [a][1..] == [];
    assert !MatchesAny(text, []);
  }

  lemma MatchesThree(text: string, a: string, b: string, c: string)
    ensures MatchesAny(text, [a, b, c]) <==> Contains(text, a) || Contains(text, b) || Contains(text, c)
  {
    assert [a, b, c][1..] == [b, c];
    MatchesTwo(text, b, c);
  }

  /** The if-chain is the table lookup: the reply is the one of the first
      keyword group present in the lowercased message. */
  lemma ReplyIsFirstMatchingGroup(message: string)
    ensures GenerateReply(message) == Replies[FirstMatch(ToLower(message), KeywordGroups)]
  {
    var m := ToLower(message);
    var g := KeywordGroups;
    MatchesTwo(m, "hello", "hi");
    MatchesTwo(m, "aws", "amazon");
    MatchesTwo(m, "azure", "microsoft");
    MatchesTwo(m, "google", "gcp");
    MatchesOne(m, "salesforce");
    MatchesOne(m, "oracle");
    MatchesThree(m, "service", "help", "support");
    MatchesTwo(m, "contact", "speak");
    assert g[1..] == [g[1], g[2], g[3], g[4], g[5], g[6], g[7]];
    assert g[1..][1..] == [g[2], g[3], g[4], g[5], g[6], g[7]];
    assert g[1..][1..][1..] == [g[3], g[4], g[5], g[6], g[7]];
    assert g[1..][1..][1..][1..] == [g[4], g[5], g[6], g[7]];
    assert g[1..][1..][1..][1..][1..] == [g[5], g[6], g[7]];
    assert g[1..][1..][1..][1..][1..][1..] == [g[6], g[7]];
    assert g[1..][1..][1..][1..][1..][1..][1..] == [g[7]];
    assert g[1..][1..][1..][1..][1..][1..][1..][1..] == [];
  }

  /** Matching ignores ASCII case. */
  lemma ReplyIgnoresCase(message: string)
    ensures GenerateReply(ToLower(message)) == GenerateReply(message)
  {
    ToLowerIdempotent(message);
  }

  /** Matching is by substring, so "which" hides "hi" and a question about
      AWS gets the greeting. */
  lemma SubstringMatchGreets()
    ensures GenerateReply("Which AWS plan?") == Greeting
  {
    var m := ToLower("Which AWS plan?");
    assert m[1..][..2] == "hi";
    assert Contains(m[1..], "hi");
  }

  datatype Sender = FromUser | FromBot

  /** A chat message; its id and timestamp are not modelled. */
  datatype Message = Message(sender: Sender, text: string)

  const Welcome := Message(FromBot, "Hi there! I'm Value M's virtual assistant. How can I help you with our cloud services today?")

  const ErrorReply := "I'm sorry, I couldn't process your request. Please try again later."

  /** The message list the widget starts with. */
  const InitialMessages: seq<Message> := [Welcome]

  /** Characters `String.prototype.trim` strips (ECMAScript WhiteSpace and
      LineTerminator). */
  predicate IsWhitespace(c: char) {
    c == ' ' || c == '\t' || c == '\n' || c == '\r' || c == '\U{000B}' || c == '\U{000C}'
    || c == '\U{00A0}' || c == '\U{1680}' || ('\U{2000}' <= c <= '\U{200A}')
    || c == '\U{2028}' || c == '\U{2029}' || c == '\U{202F}' || c == '\U{205F}'
    || c == '\U{3000}' || c == '\U{FEFF}'
  }

  /** `!input.trim()`: nothing but whitespace. */
  predicate IsBlank(s: string) {
    forall i :: 0 <= i < |s| ==> IsWhitespace(s[i])
  }

  /** `handleSendMessage`: a blank input sends nothing; otherwise the user's
      message and then one bot message are appended. `replyFails` stands for
      the reply promise rejecting, which yields the apology text. */
  function Send(messages: seq<Message>, input: string, replyFails: bool): (r: seq<Message>)
    ensures IsBlank(input) ==> r == messages
    ensures !IsBlank(input) ==> |r| == |messages| + 2 && r[..|messages|] == messages
    ensures !IsBlank(input) ==> r[|messages|] == Message(FromUser, input)
    ensures !IsBlank(input) ==> r[|messages| + 1].sender == FromBot
    ensures !IsBlank(input) ==> r[|messages| + 1].text == if replyFails then ErrorReply else GenerateReply(input)
    ensures !IsBlank(input) ==> r[|messages| + 1].text in Replies + [ErrorReply]
  {
    if IsBlank(input) then messages
    else
      var reply := if replyFails then ErrorReply else GenerateReply(input);
      messages + [Message(FromUser, input), Message(FromBot, reply)]
  }

  /** The shape of every conversation: the welcome first, then pairs of a
      non-blank user message and the bot's answer to it. */
  predicate WellFormedChat(messages: seq<Message>) {
    && |messages| % 2 == 1
    && messages[0] == Welcome
    && (forall k :: 1 <= k < |messages| && k % 2 == 1 ==>
          messages[k].sender == FromUser && !IsBlank(messages[k].text))
    && (forall k :: 2 <= k < |messages| && k % 2 == 0 ==>
          messages[k].sender == FromBot &&
          (messages[k].text == GenerateReply(messages[k - 1].text) || messages[k].text == ErrorReply))
  }

  /** The initial list is a conversation. */
  lemma InitialIsConversation()
    ensures WellFormedChat(InitialMessages)
  {
  }

  /** Every send keeps the list a conversation, so the welcome stays first
      and each user message gets exactly one answer. */
  lemma SendKeepsConversation(messages: seq<Message>, input: string, replyFails: bool)
    requires WellFormedChat(messages)
    ensures WellFormedChat(Send(messages, input, replyFails))
  {
    if !IsBlank(input) {
      var n := |messages|;
      var answer := Message(FromBot, if replyFails then ErrorReply else GenerateReply(input));
      var r := messages + [Message(FromUser, input), answer];
      assert Send(messages, input, replyFails) == r;
      forall k | 1 <= k < |r| && k % 2 == 1
        ensures r[k].sender == FromUser && !IsBlank(r[k].text)
      {
        if k < n {
          assert r[k] == messages[k];
        }
      }
      forall k | 2 <= k < |r| && k % 2 == 0
        ensures r[k].sender == FromBot && (r[k].text == GenerateReply(r[k - 1].text) || r[k].text == ErrorReply)
      {
        if k < n {
          assert r[k] == messages[k] && r[k - 1] == messages[k - 1];
        }
      }
    }
  }
}
