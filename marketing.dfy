/** The marketing-content widget: pick a content type, type a topic, and
    generate a text from the type's template after a short delay. */
module Marketing {
  import opened Common

  const EmailSubjectDefault: string := "Découvrez notre nouvelle offre"
  const EmailBodyDefault: string := "nos produits"
  const PostDefault: string := "Une grande annonce!"
  const SmsDefault: string := "Découvrez nos nouvelles offres"

  /** `topic || fallback`. */
  function TopicOr(topic: string, fallback: string): (r: string)
    ensures topic != "" ==> r == topic
    ensures topic == "" ==> r == fallback
  {
    if topic != "" then topic else fallback
  }

  function EmailText(subject: string, product: string, userName: string): string
  {
    "Bonjour,\n\nSujet: " + subject
    + "\n\nVous êtes important pour nous. Découvrez comment " + product
    + " peuvent transformer votre expérience.\n\n[Lien CTA]\n\nCordialement,\n" + userName
  }

  function PostText(headline: string): string
  {
    "📢 " + headline
    + "\n\nDécouvrez comment on peut vous aider! 🎯\n\n✨ Avantage 1\n✨ Avantage 2\n✨ Avantage 3\n\nVous intéressé? 👇\n#OmniShop #Marketing"
  }

  function SmsText(offer: string): string
  {
    "Salut! " + offer + " 🎉. Cliquez ici: [LIEN]. Valable 48h seulement!"
  }

  predicate KnownType(contentType: string)
  {
    contentType == "email" || contentType == "post" || contentType == "sms"
  }

  /** `templates[contentType] || ""`, the templates built from the topic
      and the user's name. */
  function GeneratedText(contentType: string, topic: string, userName: string): (text: string)
    ensures KnownType(contentType) <==> text != ""
  {
    if contentType == "email" then
      EmailText(TopicOr(topic, EmailSubjectDefault), TopicOr(topic, EmailBodyDefault), userName)
    else if contentType == "post" then PostText(TopicOr(topic, PostDefault))
    else if contentType == "sms" then SmsText(TopicOr(topic, SmsDefault))
    else ""
  }

  /** Every e-mail is signed with the user's name. */
  lemma EmailSignedByUser(topic: string, userName: string)
    ensures var text := GeneratedText("email", topic, userName);
      |text| >= |userName| && text[|text| - |userName|..] == userName
  {
    var text := GeneratedText("email", topic, userName);
    var body := EmailText(TopicOr(topic, EmailSubjectDefault), TopicOr(topic, EmailBodyDefault), "");
    assert text == body + userName;
  }

  /** An empty topic reads as if the template's own default phrase had been
      typed (the e-mail has two: one in the subject and one in the body). */
  lemma EmptyTopicUsesDefaults(userName: string)
    ensures GeneratedText("post", "", userName) == GeneratedText("post", PostDefault, userName)
    ensures GeneratedText("sms", "", userName) == GeneratedText("sms", SmsDefault, userName)
    ensures GeneratedText("email", "", userName) == EmailText(EmailSubjectDefault, EmailBodyDefault, userName)
  {
  }

  /** A topic that is not empty, even one of spaces only, appears verbatim in
      every template. */
  lemma {:induction false} TopicAppearsVerbatim(contentType: string, topic: string, userName: string)
    requires KnownType(contentType) && topic != ""
    ensures Contains(GeneratedText(contentType, topic, userName), topic)
  {
    var text := GeneratedText(contentType, topic, userName);
    if contentType == "email" {
      var rest := "\n\nVous êtes important pour nous. Découvrez comment " + topic
        + " peuvent transformer votre expérience.\n\n[Lien CTA]\n\nCordialement,\n" + userName;
      assert text == "Bonjour,\n\nSujet: " + topic + rest;
      ContainsInfix("Bonjour,\n\nSujet: ", topic, rest);
    } else if contentType == "post" {
      var rest := "\n\nDécouvrez comment on peut vous aider! 🎯\n\n✨ Avantage 1\n✨ Avantage 2\n✨ Avantage 3\n\nVous intéressé? 👇\n#OmniShop #Marketing";
      assert text == "📢 " + topic + rest;
      ContainsInfix("📢 ", topic, rest);
    } else {
      var rest := " 🎉. Cliquez ici: [LIEN]. Valable 48h seulement!";
      assert text == "Salut! " + topic + rest;
      ContainsInfix("Salut! ", topic, rest);
    }
  }

  /** A generation request waiting for its timer: the content type and the
      topic as they were when the button was clicked. */
  datatype Request = Request(contentType: string, topic: string)

  class MarketingWidget {
    const userName: string
    var contentType: string
    var topic: string
    var generatedContent: string
    var isGenerating: bool
    /** Requests whose timers have not fired yet, oldest first. */
    var pending: seq<Request>

    constructor (userName: string)
      ensures this.userName == userName
      ensures contentType == "email" && topic == "" && generatedContent == "" && !isGenerating && pending == []
    {
      this.userName := userName;
      contentType, topic, generatedContent, isGenerating, pending := "email", "", "", false, [];
    }

    /** The main generate button is enabled. */
    predicate GenerateEnabled()
      reads this
    {
      !isGenerating && !IsBlank(topic)
    }

    /** The regenerate button is shown. */
    predicate RegenerateShown()
      reads this
    {
      generatedContent != ""
    }

    /** The regenerate button is enabled; unlike the main button it does not
        look at the topic. */
    predicate RegenerateEnabled()
      reads this
    {
      !isGenerating
    }

    /** One of the three type buttons. */
    method SelectType(t: string)
      requires KnownType(t)
      modifies this
      ensures contentType == t
      ensures topic == old(topic) && generatedContent == old(generatedContent)
      ensures isGenerating == old(isGenerating) && pending == old(pending)
    {
      contentType := t;
    }

    method SetTopic(text: string)
      modifies this
      ensures topic == text
      ensures contentType == old(contentType) && generatedContent == old(generatedContent)
      ensures isGenerating == old(isGenerating) && pending == old(pending)
    {
      topic := text;
    }

    /** `handleGenerate`: generation starts and a timer is set. */
    method Generate()
      modifies this
      ensures isGenerating && pending == old(pending) + [Request(contentType, topic)]
      ensures contentType == old(contentType) && topic == old(topic) && generatedContent == old(generatedContent)
    {
      isGenerating := true;
      pending := pending + [Request(contentType, topic)];
    }

    /** The oldest timer fires: its request's text replaces the content and
        generation ends. */
    method TimerFires()
      requires pending != []
      modifies this
      ensures generatedContent == GeneratedText(old(pending[0]).contentType, old(pending[0]).topic, userName)
      ensures !isGenerating && pending == old(pending[1..])
      ensures contentType == old(contentType) && topic == old(topic)
    {
      var request := pending[0];
      generatedContent := GeneratedText(request.contentType, request.topic, userName);
      isGenerating := false;
      pending := pending[1..];
    }
  }

  /** Generating with a non-blank topic from a selected type always shows
      a text holding that topic, and lets the user regenerate. */
  method GenerateThenFire(w: MarketingWidget)
    requires w.GenerateEnabled() && w.pending == [] && KnownType(w.contentType)
    modifies w
    ensures Contains(w.generatedContent, w.topic)
    ensures w.RegenerateShown() && w.RegenerateEnabled()
  {
    w.Generate();
    w.TimerFires();
    assert w.topic != "" by {
      assert !IsBlank(w.topic);
    }
    TopicAppearsVerbatim(w.contentType, w.topic, w.userName);
  }
}
