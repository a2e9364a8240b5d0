/**
 * The assistant's keyword table and its matcher (src/data/chatbotResponses.ts):
 * the message is lower-cased and the first entry, in table order, with a
 * keyword contained in it is the answer; otherwise the default entry.
 */
module ChatbotResponses {
  import opened Wrappers
  import opened Types
  import opened Lists
  import opened Text

  /** The table, highest priority first. */
  const Table: seq<ChatbotResponse> := [
    ChatbotResponse(
      ["bonjour", "salut", "hello", "hey", "bonsoir"],
      "Bonjour ! Je suis l'assistant BusinessConnect. Comment puis-je vous aider aujourd'hui ?",
      Some("Vous pouvez me poser des questions sur l'événement, votre agenda, ou comment utiliser la plateforme.")),
    ChatbotResponse(
      ["agenda", "rendez-vous", "rdv", "meeting", "rencontre"],
      "Votre agenda personnalisé est disponible dans la section \"Mon Agenda\". Vous y trouverez tous vos rendez-vous de la journée avec les créneaux horaires, les noms des participants et les numéros de tables.",
      Some("Vous pouvez également exporter votre agenda au format ICS pour l'ajouter à votre calendrier personnel.")),
    ChatbotResponse(
      ["préférence", "choix", "sélection", "souhaite", "rencontrer"],
      "Vous pouvez exprimer jusqu'à 10 préférences de rencontres dans la section \"Mes Préférences\". Classez-les par ordre de priorité en utilisant le drag & drop.",
      Some("La date limite pour soumettre vos préférences est indiquée en haut de la page. N'oubliez pas de valider vos choix !")),
    ChatbotResponse(
      ["participant", "entreprise", "startup", "liste", "voir"],
      "La liste complète des participants est disponible dans la section \"Participants\". Vous pouvez filtrer par type (Startup/Entreprise), secteur d'activité ou thématique.",
      Some("Cliquez sur une carte participant pour voir son profil détaillé et l'ajouter à vos préférences.")),
    ChatbotResponse(
      ["message", "contacter", "écrire", "communication"],
      "Vous pouvez envoyer des messages aux autres participants via la section \"Messages\". Cela vous permet de préparer vos rencontres en amont.",
      Some("Les nouveaux messages sont signalés par une notification dans la barre de navigation.")),
    ChatbotResponse(
      ["lieu", "adresse", "parking", "accès", "venir", "comment"],
      "L'événement se déroule au Village by CA Luxembourg, 39 Rue du Puits Romain. Un parking est disponible sur place.",
      Some("Retrouvez toutes les informations pratiques (accès, parking, transports) dans la section \"Infos pratiques\".")),
    ChatbotResponse(
      ["heure", "horaire", "quand", "programme", "déroulement"],
      "L'événement se déroule de 9h00 à 19h00. Les speed-meetings ont lieu de 10h00 à 12h30 puis de 14h30 à 17h00.",
      Some("Consultez le programme complet dans la section \"Programme\" pour voir les keynotes, pauses et moments de networking.")),
    ChatbotResponse(
      ["profil", "modifier", "changer", "paramètre", "compte"],
      "Vous pouvez modifier votre profil et vos paramètres dans la section \"Paramètres\" accessible depuis le menu.",
      Some("Pensez à compléter votre profil pour maximiser vos chances de matching pertinent !")),
    ChatbotResponse(
      ["table", "numéro", "où", "trouver"],
      "Chaque rendez-vous est associé à un numéro de table. Vous trouverez cette information dans votre agenda, sur chaque créneau de meeting.",
      Some("Un plan de l'espace speed-meeting est affiché sur place pour vous guider.")),
    ChatbotResponse(
      ["problème", "aide", "bug", "erreur", "marche pas"],
      "Je suis désolé que vous rencontriez des difficultés. Pour une assistance personnalisée, vous pouvez contacter l'équipe organisatrice.",
      Some("Email : events@village-ca.lu | Téléphone : +352 26 27 28 29")),
    ChatbotResponse(
      ["merci", "super", "parfait", "génial", "cool"],
      "Je vous en prie ! N'hésitez pas si vous avez d'autres questions. Je suis là pour vous aider.",
      Some("Bonne journée et bonnes rencontres !")),
    ChatbotResponse(
      ["export", "ics", "calendrier", "google", "outlook"],
      "Vous pouvez exporter votre agenda au format ICS depuis la section \"Mon Agenda\". Cliquez sur le bouton \"Exporter\" en haut à droite.",
      Some("Le fichier ICS est compatible avec Google Calendar, Outlook, Apple Calendar et la plupart des applications de calendrier.")),
    ChatbotResponse(
      ["wifi", "internet", "connexion", "réseau"],
      "Un réseau WiFi gratuit est disponible sur place. Nom du réseau : Village_Event | Mot de passe : disponible à l'accueil.",
      Some("En cas de problème de connexion, n'hésitez pas à demander à l'équipe sur place.")),
    ChatbotResponse(
      ["badge", "accréditation", "entrée", "inscription"],
      "Votre badge vous attend à l'accueil dès 9h00. Présentez-vous avec une pièce d'identité ou montrez votre confirmation d'inscription.",
      Some("Le badge est nécessaire pour accéder à l'espace speed-meeting et au déjeuner."))
  ]

  /** The answer when no keyword matches; it is the only entry without keywords. */
  const Default: ChatbotResponse := ChatbotResponse(
    [],
    "Je ne suis pas sûr de comprendre votre question. Pouvez-vous reformuler ou être plus précis ?",
    Some("Si vous avez besoin d'une assistance personnalisée, contactez l'équipe : events@village-ca.lu"))

  /** The inner loop: some keyword of the entry is contained in the lower-cased message. */
  predicate Matches(entry: ChatbotResponse, lowered: string) {
    FindIndex(entry.keywords, (k: string) => Contains(lowered, k)) >= 0
  }

  lemma MatchesIff(entry: ChatbotResponse, lowered: string)
    ensures Matches(entry, lowered) <==>
      exists k :: 0 <= k < |entry.keywords| && Contains(lowered, entry.keywords[k])
  {
  }

  /** The entry of `table` that answers an already lower-cased message. */
  function FindIn(table: seq<ChatbotResponse>, lowered: string): ChatbotResponse {
    Find(table, (entry: ChatbotResponse) => Matches(entry, lowered)).GetOr(Default)
  }

  /** `findResponse(message)`. */
  function FindResponse(message: string): ChatbotResponse {
    FindIn(Table, Lower(message))
  }

  /** Every entry of a table has a keyword, so none of them is the default entry. */
  ghost predicate AllHaveKeywords(table: seq<ChatbotResponse>) {
    forall i :: 0 <= i < |table| ==> table[i].keywords != []
  }

  lemma TableHasKeywords()
    ensures AllHaveKeywords(Table)
  {
  }

  /**
   * In a table whose entries all have keywords, the answer is the first
   * entry, in table order, with a keyword contained in the message; the
   * default entry exactly when no entry has one.
   */
  lemma FindInFirstMatch(table: seq<ChatbotResponse>, lowered: string)
    requires AllHaveKeywords(table)
    ensures var r := FindIn(table, lowered);
      (r == Default <==> forall i :: 0 <= i < |table| ==> !Matches(table[i], lowered))
      && (r != Default ==>
            exists i :: 0 <= i < |table| && table[i] == r && Matches(r, lowered)
              && forall j :: 0 <= j < i ==> !Matches(table[j], lowered))
  {
    var f := Find(table, (entry: ChatbotResponse) => Matches(entry, lowered));
    if f.Some? {
      var k :| 0 <= k < |table| && table[k] == f.value && Matches(table[k], lowered)
        && forall j :: 0 <= j < k ==> !Matches(table[j], lowered);
      assert f.value.keywords != [];
    }
  }

  /** The first matching entry wins: an entry that matches is answered unless an earlier one matches too. */
  lemma FindInEarliest(table: seq<ChatbotResponse>, lowered: string, i: int)
    requires AllHaveKeywords(table)
    requires 0 <= i < |table| && Matches(table[i], lowered)
    requires forall j :: 0 <= j < i ==> !Matches(table[j], lowered)
    ensures FindIn(table, lowered) == table[i]
  {
    FindInFirstMatch(table, lowered);
  }

  lemma FindResponseFirstMatch(message: string)
    ensures var r := FindResponse(message);
      (r == Default <==> forall i :: 0 <= i < |Table| ==> !Matches(Table[i], Lower(message)))
      && (r != Default ==>
            exists i :: 0 <= i < |Table| && Table[i] == r && Matches(r, Lower(message))
              && forall j :: 0 <= j < i ==> !Matches(Table[j], Lower(message)))
  {
    TableHasKeywords();
    FindInFirstMatch(Table, Lower(message));
  }

  /** The answer is always a table entry or the default entry, which has no keywords. */
  lemma FindResponseInTable(message: string)
    ensures FindResponse(message) in Table || FindResponse(message) == Default
    ensures FindResponse(message).keywords == [] <==> FindResponse(message) == Default
  {
    TableHasKeywords();
    FindInFirstMatch(Table, Lower(message));
  }

  /** Messages that differ only in letter case get the same answer. */
  lemma FindResponseIgnoresCase(a: string, b: string)
    requires |a| == |b|
    requires forall i :: 0 <= i < |a| ==> LowerChar(a[i]) == LowerChar(b[i])
    ensures FindResponse(a) == FindResponse(b)
  {
    LowerSameUpToCase(a, b);
  }

  /** Lower-casing a message first does not change its answer. */
  lemma FindResponseOfLowered(message: string)
    ensures FindResponse(Lower(message)) == FindResponse(message)
  {
    LowerIdempotent(message);
  }

  /** Any message containing a greeting keyword gets the greeting entry, whatever else it contains. */
  lemma GreetingWins(message: string, k: int)
    requires 0 <= k < |Table[0].keywords| && Contains(Lower(message), Table[0].keywords[k])
    ensures FindResponse(message) == Table[0]
  {
    MatchesIff(Table[0], Lower(message));
    TableHasKeywords();
    FindInEarliest(Table, Lower(message), 0);
  }

  /** A message containing "rencontrer" contains "rencontre". */
  lemma RencontrerContainsRencontre(lowered: string)
    requires Contains(lowered, "rencontrer")
    ensures Contains(lowered, "rencontre")
  {
    assert "rencontrer" == "rencontre" + "r";
    ContainsPrefixOf(lowered, "rencontre", "r");
  }

  /** When the second entry matches, the answer is the first or the second entry. */
  lemma SecondMatchShadows(table: seq<ChatbotResponse>, lowered: string)
    requires AllHaveKeywords(table) && 2 <= |table| && Matches(table[1], lowered)
    ensures FindIn(table, lowered) == table[0] || FindIn(table, lowered) == table[1]
    ensures !Matches(table[0], lowered) ==> FindIn(table, lowered) == table[1]
  {
    if Matches(table[0], lowered) {
      FindInEarliest(table, lowered, 0);
    } else {
      FindInEarliest(table, lowered, 1);
    }
  }

  /**
   * "rencontrer" is a keyword of the preferences entry, but its prefix
   * "rencontre" is a keyword of the agenda entry, which comes first: a
   * message containing "rencontrer" never gets the preferences entry.
   */
  lemma RencontrerShadowed(message: string)
    requires Contains(Lower(message), "rencontrer")
    ensures FindResponse(message) == Table[0] || FindResponse(message) == Table[1]
    ensures !Matches(Table[0], Lower(message)) ==> FindResponse(message) == Table[1]
  {
    var lm := Lower(message);
    RencontrerContainsRencontre(lm);
    assert Table[1].keywords[4] == "rencontre";
    MatchesIff(Table[1], lm);
    TableHasKeywords();
    SecondMatchShadows(Table, lm);
  }

  /** "Bonjour, comment ça va ?" is a greeting although "comment" is a keyword of a later entry. */
  lemma GreetingExample()
    ensures FindResponse("Bonjour, comment ça va ?") == Table[0]
  {
    var m := "Bonjour, comment ça va ?";
    assert Lower(m)[..7] == "bonjour";
    assert OccursAt(Lower(m), "bonjour", 0);
    OccursAtContains(Lower(m), "bonjour", 0);
    GreetingWins(m, 0);
  }

  /** Every greeting keyword has a 'b', an 'h' or an 'l': a message with none of them is no greeting. */
  lemma NotGreeting(lowered: string)
    requires 'b' !in lowered && 'h' !in lowered && 'l' !in lowered
    ensures !Matches(Table[0], lowered)
  {
    MissingCharNotContained(lowered, "bonjour", 0);
    MissingCharNotContained(lowered, "salut", 2);
    MissingCharNotContained(lowered, "hello", 0);
    MissingCharNotContained(lowered, "hey", 0);
    MissingCharNotContained(lowered, "bonsoir", 0);
    MatchesIff(Table[0], lowered);
  }

  lemma AgendaExampleText()
    ensures Lower("Où est mon agenda ?") == "où est mon agenda ?"
    ensures var lm := "où est mon agenda ?";
      'b' !in lm && 'h' !in lm && 'l' !in lm && Contains(lm, "agenda")
  {
    var lm := "où est mon agenda ?";
    assert lm[11..17] == "agenda";
    OccursAtContains(lm, "agenda", 11);
  }

  /** A message that mentions the agenda and is no greeting gets the agenda entry. */
  lemma AgendaWins(lowered: string)
    requires Contains(lowered, "agenda") && !Matches(Table[0], lowered)
    ensures FindIn(Table, lowered) == Table[1]
  {
    assert Table[1].keywords[0] == "agenda";
    MatchesIff(Table[1], lowered);
    TableHasKeywords();
    FindInEarliest(Table, lowered, 1);
  }

  /** "Où est mon agenda ?" gets the agenda entry, not the entry for "où". */
  lemma AgendaExample()
    ensures FindResponse("Où est mon agenda ?") == Table[1]
  {
    AgendaExampleText();
    NotGreeting("où est mon agenda ?");
    AgendaWins("où est mon agenda ?");
  }

  /** "bonjour", "BONJOUR" and "BoNjOuR" get the same answer. */
  lemma CaseExample()
    ensures FindResponse("bonjour") == FindResponse("BONJOUR") == FindResponse("BoNjOuR")
  {
    assert Lower("BONJOUR") == Lower("bonjour") == Lower("BoNjOuR");
  }
}
