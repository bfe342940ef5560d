/** The card shown for one interview of the listing: which technologies it
    shows and which icon each one gets. */
module InterviewCardComponent {
  import opened Catalog

  const DefaultIcon := "https://img.icons8.com/ios-filled/50/code.png"
  const CommunicationIcon := "https://img.icons8.com/ios-filled/50/ffffff/chat--v1.png"
  const LeadershipIcon := "https://img.icons8.com/ios-filled/50/ffffff/manager--v1.png"

  /** The technologies shown for an interview without a tech stack. */
  const FallbackTechs := ["Communication", "Leadership"]

  /** The icon table, keyed by technology name. */
  const TechIcons: map<string, string> := map[
    "React" := "https://cdn.jsdelivr.net/gh/devicons/devicon/icons/react/react-original.svg",
    "Node.js" := "https://cdn.jsdelivr.net/gh/devicons/devicon/icons/nodejs/nodejs-plain.svg",
    "PostgreSQL" := "https://cdn.jsdelivr.net/gh/devicons/devicon/icons/postgresql/postgresql-plain.svg",
    "HTML" := "https://cdn.jsdelivr.net/gh/devicons/devicon/icons/html5/html5-plain.svg",
    "CSS" := "https://cdn.jsdelivr.net/gh/devicons/devicon/icons/css3/css3-plain.svg",
    "JavaScript" := "https://cdn.jsdelivr.net/gh/devicons/devicon/icons/javascript/javascript-plain.svg",
    "Express" := "https://img.icons8.com/?size=100&id=24895&format=png&color=000000",
    "MongoDB" := "https://cdn.jsdelivr.net/gh/devicons/devicon/icons/mongodb/mongodb-plain.svg",
    "Python" := "https://cdn.jsdelivr.net/gh/devicons/devicon/icons/python/python-original.svg",
    "Pandas" := "https://cdn.jsdelivr.net/gh/devicons/devicon/icons/pandas/pandas-original.svg",
    "Scikit-learn" := "https://raw.githubusercontent.com/scikit-learn/scikit-learn/main/doc/logos/scikit-learn-logo-notext.png",
    "Docker" := "https://cdn.jsdelivr.net/gh/devicons/devicon/icons/docker/docker-original.svg",
    "Kubernetes" := "https://cdn.jsdelivr.net/gh/devicons/devicon/icons/kubernetes/kubernetes-plain.svg",
    "AWS" := "https://cdn.jsdelivr.net/gh/devicons/devicon/icons/amazonwebservices/amazonwebservices-original-wordmark.svg",
    "Agile" := "https://img.icons8.com/?size=100&id=UKz3dHdlTEyP&format=png&color=000000",
    "Communication" := CommunicationIcon,
    "Leadership" := LeadershipIcon,
    "Management" := "https://img.icons8.com/ios-filled/50/ffffff/task.png"
  ]

  /** `isTechnical ? interview.tech_stack : fallbackNonTechnicalIcons`: a
      non-empty stack is shown as given, an empty one as the two soft
      skills; the card never shows an empty row. */
  function DisplayTechs(interview: InterviewSummary): (techs: seq<string>)
    ensures |techs| > 0
    ensures |interview.techStack| > 0 ==> techs == interview.techStack
    ensures |interview.techStack| == 0 ==> techs == FallbackTechs
  {
    if |interview.techStack| > 0 then interview.techStack else FallbackTechs
  }

  /** `techIcons[tech] || default`: the table's icon for a known name, the
      generic code icon for any other. */
  function IconFor(tech: string): (url: string)
    ensures tech in TechIcons ==> url == TechIcons[tech]
    ensures tech !in TechIcons ==> url == DefaultIcon
    ensures url != ""
  {
    if tech in TechIcons && TechIcons[tech] != "" then TechIcons[tech] else DefaultIcon
  }

  /** One icon per shown technology, in the same order. */
  function Icons(interview: InterviewSummary): (urls: seq<string>)
    ensures |urls| == |DisplayTechs(interview)|
    ensures forall k :: 0 <= k < |urls| ==> urls[k] == IconFor(DisplayTechs(interview)[k])
  {
    var techs := DisplayTechs(interview);
    seq(|techs|, k requires 0 <= k < |techs| => IconFor(techs[k]))
  }

  /** An interview without a tech stack shows the chat and manager icons. */
  lemma FallbackIcons(interview: InterviewSummary)
    requires interview.techStack == []
    ensures Icons(interview) == [CommunicationIcon, LeadershipIcon]
  {
  }

  /** The generic icon appears exactly for the names the table lacks. */
  lemma DefaultIconOnlyForUnknown(tech: string)
    ensures IconFor(tech) == DefaultIcon <==> tech !in TechIcons
  {
    assert forall t :: t in TechIcons ==> TechIcons[t] != DefaultIcon by {
      forall t | t in TechIcons ensures TechIcons[t] != DefaultIcon {
        assert |TechIcons[t]| > |DefaultIcon|;
      }
    }
  }
}
