/**
 * The résumé content records (src/data/resume.ts): the entity types the list
 * components consume, the shipped lists of contributions, publications, talks and
 * awards, and the derived list of additional GitHub contributions.
 *
 * Category fields are called `kind` (the source's `type`) and are plain strings,
 * so that the components' `default` branches keep their meaning.
 */
module ResumeData {
  import opened Wrappers
  import Listing

  datatype Contribution = Contribution(
    name: string,
    kind: string,
    url: string,
    description: Option<string>,
    features: Option<seq<string>>)

  datatype Publication = Publication(
    title: string,
    kind: string,
    venue: Option<string>,
    date: Option<string>,
    url: Option<string>,
    views: Option<string>,
    description: Option<string>)

  datatype Materials = Materials(slides: Option<string>, video: Option<string>, coverage: Option<string>)

  datatype Talk = Talk(
    title: string,
    venue: string,
    date: string,
    kind: string,
    audience: string,
    description: Option<string>,
    materials: Option<Materials>)

  datatype Award = Award(title: string, organization: string, level: string, year: Option<string>)

  /** One entry of `additionalGitHubContributions`. */
  datatype GitHubLink = GitHubLink(name: string, url: string, displayName: string)

  function ContributionKind(c: Contribution): string { c.kind }
  function PublicationKind(p: Publication): string { p.kind }

  // ---------------------------------------------------------------------------
  // `String.prototype.replace` with a string pattern
  // ---------------------------------------------------------------------------

  predicate OccursAt(s: string, pat: string, i: nat) {
    i + |pat| <= |s| && s[i..i + |pat|] == pat
  }

  /** The first position at or after `from` where `pat` occurs in `s`. */
  function FindFrom(s: string, pat: string, from: nat): (r: Option<nat>)
    ensures r.Some? ==> from <= r.value && OccursAt(s, pat, r.value)
    ensures r.Some? ==> forall j: nat :: from <= j < r.value ==> !OccursAt(s, pat, j)
    ensures r.None? ==> forall j: nat :: from <= j ==> !OccursAt(s, pat, j)
    decreases |s| - from
  {
    if from + |pat| > |s| then None
    else if s[from..from + |pat|] == pat then Some(from)
    else FindFrom(s, pat, from + 1)
  }

  /** `s.replace(pat, rep)` for a replacement without `$` patterns: only the first occurrence of `pat` is replaced. */
  function ReplaceFirst(s: string, pat: string, rep: string): (r: string)
    ensures (forall j: nat :: !OccursAt(s, pat, j)) ==> r == s
    ensures OccursAt(s, pat, 0) ==> r == rep + s[|pat|..]
  {
    match FindFrom(s, pat, 0)
    case None => s
    case Some(i) => s[..i] + rep + s[i + |pat|..]
  }

  /** With its first occurrence at `i`, the pattern is cut out there and nowhere else. */
  lemma ReplaceFirstAt(s: string, pat: string, rep: string, i: nat)
    requires OccursAt(s, pat, i)
    requires forall j: nat :: j < i ==> !OccursAt(s, pat, j)
    ensures ReplaceFirst(s, pat, rep) == s[..i] + rep + s[i + |pat|..]
  {
    var r := FindFrom(s, pat, 0);
    assert r.Some?;
  }

  // ---------------------------------------------------------------------------
  // additionalGitHubContributions
  // ---------------------------------------------------------------------------

  const GitHubPrefix := "https://github.com/"

  /** The contributions of type "github", in order, each with its repository path. */
  function AdditionalGitHubContributions(cs: seq<Contribution>): (r: seq<GitHubLink>)
    ensures |r| == |Listing.Filter(cs, ContributionKind, "github")|
    ensures forall i :: 0 <= i < |r| ==>
              var c := Listing.Filter(cs, ContributionKind, "github")[i];
              r[i].name == c.name && r[i].url == c.url
              && r[i].displayName == ReplaceFirst(c.url, GitHubPrefix, "")
  {
    var gh := Listing.Filter(cs, ContributionKind, "github");
    seq(|gh|, i requires 0 <= i < |gh| => GitHubLink(gh[i].name, gh[i].url, ReplaceFirst(gh[i].url, GitHubPrefix, "")))
  }

  /**
   * The derived list is the "github" group of the grouping, one link per entry, and
   * for a URL under https://github.com/ the display name is the rest of the URL.
   */
  lemma GitHubLinksFollowGroup(cs: seq<Contribution>, i: int)
    requires 0 <= i < |AdditionalGitHubContributions(cs)|
    ensures "github" in Listing.Grouped(cs, ContributionKind)
    ensures var link, c := AdditionalGitHubContributions(cs)[i], Listing.Grouped(cs, ContributionKind)["github"][i];
            link.name == c.name && link.url == c.url && c.kind == "github"
    ensures var link := AdditionalGitHubContributions(cs)[i];
            GitHubPrefix <= link.url ==> GitHubPrefix + link.displayName == link.url
  {
    var gh := Listing.Filter(cs, ContributionKind, "github");
    Listing.KindsPresent(cs, ContributionKind, "github");
    Listing.FilterCount(cs, ContributionKind, "github", gh[i]);
    assert gh[i] in multiset(gh);
    var link := AdditionalGitHubContributions(cs)[i];
    if GitHubPrefix <= link.url {
      RemovePrefix(link.url, GitHubPrefix);
    }
  }

  /** Removing a leading pattern leaves the rest, and putting it back restores the string. */
  lemma RemovePrefix(s: string, pat: string)
    requires pat <= s
    ensures pat + ReplaceFirst(s, pat, "") == s
  {
    assert OccursAt(s, pat, 0);
    assert s == pat + s[|pat|..];
  }

  // ---------------------------------------------------------------------------
  // The shipped content
  // ---------------------------------------------------------------------------

  const ShippedContributions: seq<Contribution> := [
    Contribution("MetaOmic", "tool", "https://github.com/metaOmics/metaOmics",
      Some("Biostatistic tool for transcriptomic meta-analysis"),
      Some(["Featured in Bioinformatics journal", "Browser-based software suite", "Analysis pipeline"])),
    Contribution("AI Agent Study", "community", "https://schwannden.github.io/ai-agent-study/",
      Some("Educational documentation site for building autonomous AI agents using Claude"),
      Some(["Progressive learning paths from beginner to production-ready",
            "Complete runnable code examples",
            "Covers ReAct patterns and Plan-Execute-Verify architectures"])),
    Contribution("NDN on Galileo", "community", "https://github.com/schwannden/ndn-on-galileo",
      Some("Named Data Networking implementation on Intel Galileo platform"),
      Some(["Featured in Intel Maker Community", "Community wiki documentation", "Complete GitBook guide"])),
    Contribution("Chabod Church Management System", "community", "https://github.com/schwannden/chabod",
      Some("Multi-tenant open source church management system"),
      Some(["Multi-tenant open source CMS", "Vibe Coding Enabled",
            "PRP (priject requirement prompt) driven development"])),
    Contribution("FastAPI Users", "github", "https://github.com/fastapi-users/fastapi-users",
      Some("Contributions to FastAPI authentication library"), None),
    Contribution("GoogleContainerTools/kaniko", "github", "https://github.com/GoogleContainerTools/kaniko",
      Some("Contributions to Kaniko container image builder"), None),
    Contribution("Beanie ODM", "github", "https://github.com/BeanieODM/beanie",
      Some("Contributions to MongoDB ODM for Python"), None),
    Contribution("Docker Volume Backup", "github", "https://github.com/offen/docker-volume-backup",
      Some("Contributions to Docker volume backup solution"), None),
    Contribution("Locust", "github", "https://github.com/locustio/locust",
      Some("Contributions to Python load testing framework"), None)
  ]

  function Certificate(title: string): Publication {
    Publication(title, "certificate", None, None, None, None, None)
  }

  function BlogPost(title: string, views: string, url: string): Publication {
    Publication(title, "blog", Some("Blog"), None, Some(url), Some(views), None)
  }

  const ShippedPublications: seq<Publication> := [
    Certificate("Google Cloud Professional Cloud Architect"),
    Certificate("Google Cloud Professional Cloud DevOps Engineer"),
    Certificate("Google Cloud Professional Cloud Developer"),
    Publication("MetaOmics: analysis pipeline and browser-based software suite for transcriptomic meta-analysis",
      "paper", Some("Bioinformatics"), Some("2019 May"),
      Some("https://academic.oup.com/bioinformatics/article/35/9/1597/5126234"), None, None),
    Publication("Formal Theory of Strategy", "thesis", None, None,
      Some("https://drive.google.com/file/d/1AmjEnFqA7Ao_svBaBkyoaccR8WHlIltY/view?usp=sharing"), None,
      Some("Master's thesis on strategic theory and decision-making")),
    Publication("Theory of Probability", "book", None, None,
      Some("https://drive.google.com/file/d/0B3_JVAzZH1m9blhzb3oycDhBN28/view?usp=drive_link&resourcekey=0-9rpxF-egPh-pxuAQlYt8qg"),
      None, Some("A theoretical treatment of probability with Riemann-Stieltjes integral.")),
    Publication("Theory of Statistics", "book", None, None,
      Some("https://drive.google.com/file/d/0B3_JVAzZH1m9YUh0YjRSd0dnZDg/view?usp=drive_link&resourcekey=0-7M792w3TWJIHJul967L_tA"),
      None, Some("Rigorous treatment of statistics with proofs.")),
    BlogPost("Airflow with ArgoCD, kustomize, and Helm. Introducing CI/CD for Our Data Scientist Team", "5.2K views",
      "https://blog.schwannden.com/airflow-with-argocd-separating-develop-and-production-environment-with-fully-automated-ci-cd/"),
    BlogPost("Deploy Airflow to GKE from ArgoCD on GKE with Workload Identity", "4.3K views",
      "https://blog.schwannden.com/deploy-airflow-to-gke-from-argocd-on-gke-with-workload-identity/"),
    BlogPost("Multiple K8s Cluster Management", "4.3K views",
      "https://blog.schwannden.com/multiple-k8s-cluster-management-with-rancher-k3s-lightweight-k8s-cluster-for-edge-and/"),
    BlogPost("Hosting Your Own Helm Chart on GitHub with Chart Releaser", "2.6K views",
      "https://blog.schwannden.com/hosting-your-own-helm-chart-on-github-with-chart-releaser/"),
    BlogPost("Switch with a Functional and Generic turn", "2.3K views",
      "https://blog.schwannden.com/switch-with-a-functional-and-generic-turn/"),
    BlogPost("Helm and Kustomization: A Tale of K8s Manifests Management", "2.3K views",
      "https://blog.schwannden.com/helm-and-kustomization-a-tail-of-k8s-manifests-management/"),
    BlogPost("Airflow — Build, Host, Maintain Your Own Dependencies with GitHub and Docker Hub (for Free)", "1.3K views",
      "https://blog.schwannden.com/airflow-build-host-maintain-your-own-dependencies-with-github-and-docker-hub-for-free/"),
    BlogPost("MCP AI Agent在紅什麼 (What's the fuss about MCP AI Agent)", "1K views",
      "https://blog.schwannden.com/whats-the-fuzz-about-mcp-ai-agent-zh-tw/"),
    BlogPost("一手抱嬰兒，我用 20分鐘「嘴」出讀經計畫 (With my baby in one hand, I spent 20 minutes speaking a PWA into existence)",
      "0.2K views", "https://blog.schwannden.com/speak-a-pwa-into-existence/")
  ]

  const ShippedTalks: seq<Talk> := [
    Talk("End‑to‑End AutoML in Practice (Decanter AI)", "机器之心 (Jiqizhixin) × MoBagel", "2019", "workshop",
      "Industry practitioners and partners; workshop attracted hundreds of participants",
      Some("Practical AutoML pipeline design, speed/accuracy trade‑offs, and real‑world deployments"),
      Some(Materials(None, None, Some("https://www.jiqizhixin.com/articles/2019-12-19-18")))),
    Talk("AIoT and Data Analysis: Approaching Industrial AI", "National Chiao Tung University (now NYCU)", "2019", "invited",
      "Industry practitioners, partners, academics",
      Some("Key principles of 'ML Done Right' including speed/accuracy trade-offs, evaluation vs. implementation cost, human vs. machine decision-making, and real-world case studies"),
      Some(Materials(Some("https://drive.google.com/file/d/1KGScx1pni-1ZuAzezkafGdOSLrzabM8f/view?usp=sharing"), None, None))),
    Talk("State‑of‑the‑Art Machine Learning & Briefing on Master's Thesis", "Chunghwa Telecom", "2018", "briefing",
      "Enterprise partners",
      Some("Enterprise briefing on machine learning innovations and master's thesis research"),
      Some(Materials(Some("https://drive.google.com/file/d/1AmjEnFqA7Ao_svBaBkyoaccR8WHlIltY/view?usp=sharing"), None, None))),
    Talk("Statistical Machine Learning Workshop (Campus‑wide)", "National Chiao Tung University (now NYCU)", "2017", "keynote",
      "Students",
      Some("Intuitive approaches to high‑dimensional statistics for engineering students; emphasized how statistical thinking underpins modern AI/ML"),
      None),
    Talk("Cloud-Native Evangelism", "Dell (global organization ~400)", "2020–2025", "internal",
      "Global engineering teams",
      Some("Topics: containerization strategy, CI/CD (Prefect, GitHub Actions, Argo CD), continuous security patching, Kustomize, Helm. Notable impact: fostered a documentation-first culture, modernized a legacy integration-test platform to cloud-native architecture (cut ops cost by ~50%), and implemented shift-left testing."),
      None),
    Talk("Annual Service Update Briefings", "Ubiquiti", "2024–2025", "internal",
      "Cross-functional stakeholders",
      Some("Presented service milestones, reliability improvements, and roadmap highlights"),
      None)
  ]

  const ShippedAwards: seq<Award> := [
    Award("Champion, National High School English Speech Contest", "Taiwan", "national", None),
    Award("Champion (3 times), NCTU English Speech Contest", "National Chiao Tung University", "university", None)
  ]
}
