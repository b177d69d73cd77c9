/** The locale table of `addWelcomeMessage` and the lookup with its fallback to English. */
module Welcome {
  import opened ChatApi

  /** The welcome text and quick replies of one locale. */
  datatype Greeting = Greeting(text: string, quickReplies: seq<string>)

  const English: Greeting := Greeting(
    "Hello! I'm your 24/7 care assistant. I'm here to help you with medication reminders, care plan questions, emergency situations, and general health inquiries. How can I assist you today?",
    ["I want to apply for care money", "How can I make an appointment?", "How can I take care of my relative?"])

  const German: Greeting := Greeting(
    "Hallo! Ich bin Ihr 24/7 Pflegeassistent. Ich bin hier, um Ihnen bei Medikamentenerinnerungen, Fragen zum Pflegeplan, Notfallsituationen und allgemeinen Gesundheitsfragen zu helfen. Wie kann ich Ihnen heute helfen?",
    ["Ich möchte für meine Pflegegelder beantragen", "Wie kann ich einen Termin vereinbaren?", "Wie kann ich meinen Angehörigen pflegen?"])

  /** `welcomeMessages`, keyed by language code. */
  const Greetings: map<string, Greeting> := map["en" := English, "de" := German]

  /** `welcomeMessages[language] || welcomeMessages.en`: German for `'de'`,
      English for `'en'` and for every code the table does not know. */
  function SelectGreeting(language: string): (g: Greeting)
    ensures language == "de" ==> g == German
    ensures language != "de" ==> g == English
    ensures g.text != [] && |g.quickReplies| == 3
  {
    if language in Greetings then Greetings[language] else Greetings["en"]
  }

  /** The assistant message `addWelcomeMessage` renders for a language. */
  function WelcomeMessage(language: string): (m: Message)
    ensures m.kind == "assistant" && |m.quickReplies| == 3
    ensures m.text == (if language == "de" then German.text else English.text)
    ensures m.quickReplies == (if language == "de" then German.quickReplies else English.quickReplies)
  {
    var g := SelectGreeting(language);
    Message("assistant", g.text, g.quickReplies)
  }

  /** Two languages get the same welcome exactly when both are `'de'` or neither is. */
  lemma WelcomeDependsOnlyOnGerman(a: string, b: string)
    ensures WelcomeMessage(a) == WelcomeMessage(b) <==> (a == "de" <==> b == "de")
  {
  }
}
