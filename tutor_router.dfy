/**
 * Which tutor teaches which subject: a fixed table, with Stella for anything it does not list.
 */
module TutorRouter {
  import opened Models
  import Picker

  /** `TUTOR_BY_SUBJECT`. */
  const TutorBySubject: map<string, Tutor> := map[
    "Logica" := Stella,
    "Quesiti situazionali" := Stella,
    "Informatica (TIC)" := Stella,
    "Inglese A2" := Stella,
    "Codice dell'Amministrazione Digitale (CAD)" := Stella,
    "Sicurezza (D.Lgs. 81/2008)" := Maria,
    "Diritto amministrativo" := Maria,
    "Contratti pubblici" := Maria,
    "Diritto penale (PA)" := Maria,
    "Lavoro pubblico" := Maria,
    "Responsabilità del dipendente pubblico" := Maria,
    "Beni culturali" := Luna,
    "Struttura MIC" := Luna,
    "Diritto dell'Unione Europea" := Luna,
    "Marketing e comunicazione PA" := Luna,
    "Contabilità di Stato" := Luna
  ]

  /** `tutor_for_subject`: the listed tutor, or Stella for an unlisted subject. */
  function TutorForSubject(subject: string): (t: Tutor)
    ensures subject in TutorBySubject ==> t == TutorBySubject[subject]
    ensures subject !in TutorBySubject ==> t == Stella
  {
    if subject in TutorBySubject then TutorBySubject[subject] else Stella
  }

  /** The named routes: Logica and the situational quiz to Stella, law to Maria, heritage to Luna. */
  lemma NamedRoutes()
    ensures TutorForSubject("Logica") == Stella
    ensures TutorForSubject("Quesiti situazionali") == Stella
    ensures TutorForSubject("Diritto amministrativo") == Maria
    ensures TutorForSubject("Beni culturali") == Luna
  {
  }

  /** A subject the table does not know, however close to a listed one, goes to Stella. */
  lemma UnknownSubjectToStella()
    ensures TutorForSubject("") == Stella
    ensures TutorForSubject("logica") == Stella
    ensures TutorForSubject("Ragionamento critico-verbale") == Stella
  {
  }

  /** Maria is the tutor of exactly the six law and safety subjects. */
  lemma MariaSubjects(subject: string)
    ensures TutorForSubject(subject) == Maria <==>
      subject in {"Sicurezza (D.Lgs. 81/2008)", "Diritto amministrativo", "Contratti pubblici",
                  "Diritto penale (PA)", "Lavoro pubblico", "Responsabilità del dipendente pubblico"}
  {
  }

  /** Luna is the tutor of exactly the five culture and institutions subjects. */
  lemma LunaSubjects(subject: string)
    ensures TutorForSubject(subject) == Luna <==>
      subject in {"Beni culturali", "Struttura MIC", "Diritto dell'Unione Europea",
                  "Marketing e comunicazione PA", "Contabilità di Stato"}
  {
  }

  /** The routing table and the default draw table list the same sixteen subjects. */
  lemma RoutesCoverDrawTable()
    ensures forall i :: 0 <= i < |Picker.DefaultWeights| ==> Picker.DefaultWeights[i].0 in TutorBySubject
    ensures forall s :: s in TutorBySubject ==> exists i :: 0 <= i < |Picker.DefaultWeights| && Picker.DefaultWeights[i].0 == s
  {
    var w := Picker.DefaultWeights;
    forall s | s in TutorBySubject
      ensures exists i :: 0 <= i < |w| && w[i].0 == s
    {
      if s == "Logica" { assert w[0].0 == s; }
      else if s == "Quesiti situazionali" { assert w[1].0 == s; }
      else if s == "Informatica (TIC)" { assert w[2].0 == s; }
      else if s == "Inglese A2" { assert w[3].0 == s; }
      else if s == "Diritto amministrativo" { assert w[4].0 == s; }
      else if s == "Contratti pubblici" { assert w[5].0 == s; }
      else if s == "Sicurezza (D.Lgs. 81/2008)" { assert w[6].0 == s; }
      else if s == "Diritto penale (PA)" { assert w[7].0 == s; }
      else if s == "Lavoro pubblico" { assert w[8].0 == s; }
      else if s == "Responsabilità del dipendente pubblico" { assert w[9].0 == s; }
      else if s == "Beni culturali" { assert w[10].0 == s; }
      else if s == "Struttura MIC" { assert w[11].0 == s; }
      else if s == "Diritto dell'Unione Europea" { assert w[12].0 == s; }
      else if s == "Marketing e comunicazione PA" { assert w[13].0 == s; }
      else if s == "Codice dell'Amministrazione Digitale (CAD)" { assert w[14].0 == s; }
      else { assert w[15].0 == s; }
    }
  }
}
