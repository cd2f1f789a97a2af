/**
 * `DbSeeder`: the demonstration data inserted into an empty job table at
 * start-up, in five saves (categories, tags, companies, jobs with their
 * child rows and tag links, users). Identity values are assigned by the
 * database in insertion order, from above the largest id in each table.
 * The rows are written with id 0 until they are saved.
 */
module DbSeeder {
  import opened Wrappers
  import opened Seqs
  import opened Entities
  import opened Exceptions
  import opened DbContext

  /** The local category variables the job list refers to, and the name each is looked up by. */
  datatype CategoryVar = Tech | Design | Marketing | Finance | Healthcare | Education | Sales | HumanResources

  function VarName(v: CategoryVar): string {
    match v
    case Tech => "Technology"
    case Design => "Design"
    case Marketing => "Marketing"
    case Finance => "Finance"
    case Healthcare => "Healthcare"
    case Education => "Education"
    case Sales => "Sales"
    case HumanResources => "Human Resources"
  }

  /** The arguments of one `CreateJob` call; `company` indexes the seeded companies. */
  datatype JobSeed = JobSeed(
    title: string,
    description: string,
    location: string,
    salary: string,
    jobType: string,
    experienceLevel: string,
    isFeatured: bool,
    isActive: bool,
    daysAgo: int,
    company: nat,
    category: CategoryVar,
    tagNames: seq<string>,
    responsibilities: seq<string>,
    requirements: seq<string>,
    benefits: seq<string>)

  /** A job as `CreateJob` builds it, before `SaveChanges` gives it and its rows their ids. */
  datatype JobGraph = JobGraph(
    job: Job,
    tagIds: seq<int>,
    responsibilities: seq<JobItem>,
    requirements: seq<JobItem>,
    benefits: seq<JobItem>)

  const Day := 86400

  // ------------------------------------------------------------ CreateJob

  /** `tags.ToDictionary(t => t.Name)`: a repeated name makes it throw. */
  function ToDictionary(tags: seq<Tag>): (r: Option<map<string, Tag>>)
    ensures r.Some? <==> UniqueBy(tags, TagName)
    ensures r.Some? ==> forall t | t in tags :: t.name in r.value && r.value[t.name] == t
    ensures r.Some? ==> forall n | n in r.value :: r.value[n] in tags && r.value[n].name == n
    decreases |tags|
  {
    if tags == [] then Some(map[])
    else
      var init := tags[..|tags| - 1];
      var t := tags[|tags| - 1];
      assert tags == init + [t];
      match ToDictionary(init)
      case None =>
        PrefixNotUnique(init, t, TagName);
        None
      case Some(d) =>
        if t.name in d then
          var i :| 0 <= i < |init| && init[i] == d[t.name];
          LastNotUnique(init, t, TagName, i);
          None
        else
          AppendUnique(init, t, TagName);
          Some(d[t.name := t])
  }

  function Known(dict: map<string, Tag>): string -> bool { (n: string) => n in dict }

  function IdIn(dict: map<string, Tag>): string -> int {
    (n: string) => if n in dict then dict[n].id else 0
  }

  /** `id` is the id of one of `names` that the dictionary knows. */
  predicate IdOfKnownName(id: int, names: seq<string>, dict: map<string, Tag>) {
    exists n | n in names :: n in dict && id == dict[n].id
  }

  /**
   * `tagNames.Where(t => tagDict.ContainsKey(t)).Select(t => tagDict[t].Id)`:
   * the known names, in their order; unknown names are dropped without a word.
   */
  function TagIds(names: seq<string>, dict: map<string, Tag>): (r: seq<int>)
    ensures |r| == Count(names, Known(dict))
    ensures forall i :: 0 <= i < |r| ==> IdOfKnownName(r[i], names, dict)
    ensures forall n | n in names && n in dict :: dict[n].id in r
    ensures (forall n | n in names :: n in dict) ==>
      |r| == |names| && forall i :: 0 <= i < |names| ==> r[i] == dict[names[i]].id
  {
    var known := Filter(names, Known(dict));
    var r := Map(known, IdIn(dict));
    assert forall i :: 0 <= i < |r| ==> IdOfKnownName(r[i], names, dict) by {
      forall i | 0 <= i < |r| ensures IdOfKnownName(r[i], names, dict) {
        var n := known[i];
        assert n in known && Known(dict)(n);
        assert n in names && n in dict && r[i] == dict[n].id;
      }
    }
    assert forall n | n in names && n in dict :: dict[n].id in r by {
      forall n | n in names && n in dict ensures dict[n].id in r {
        var i :| 0 <= i < |known| && known[i] == n;
        assert r[i] == dict[n].id;
      }
    }
    assert (forall n | n in names :: n in dict) ==> known == names by {
      if forall n | n in names :: n in dict {
        FilterAll(names, Known(dict));
      }
    }
    r
  }

  /** A one-name list gives that name's id when the dictionary knows it, and nothing otherwise. */
  lemma TagIdsOne(n: string, dict: map<string, Tag>)
    ensures TagIds([n], dict) == if n in dict then [dict[n].id] else []
  {
    assert Filter([n], Known(dict)) == Filter([], Known(dict)) + (if n in dict then [n] else []);
  }

  /**
   * The ids of a concatenation are the ids of each part, concatenated: with
   * `TagIdsOne`, the ids follow the input order whatever names are unknown.
   */
  lemma TagIdsAppend(a: seq<string>, b: seq<string>, dict: map<string, Tag>)
    ensures TagIds(a + b, dict) == TagIds(a, dict) + TagIds(b, dict)
  {
    FilterAppend(a, b, Known(dict));
    var fa := Filter(a, Known(dict));
    var fb := Filter(b, Known(dict));
    assert Map(fa + fb, IdIn(dict)) == Map(fa, IdIn(dict)) + Map(fb, IdIn(dict));
  }

  /** `descs.Select((d, i) => new Item { Description = d, Order = i })`. */
  function Items(descs: seq<string>): (r: seq<JobItem>)
    ensures |r| == |descs|
    ensures forall i :: 0 <= i < |descs| ==> r[i].description == descs[i] && r[i].order == i
  {
    seq(|descs|, i requires 0 <= i < |descs| => JobItem(0, descs[i], i, 0))
  }

  /** `CreateJob`: posted `daysAgo` days from now, never closing. */
  function CreateJob(spec: JobSeed, companyId: int, categoryId: int, dict: map<string, Tag>, now: int): (g: JobGraph)
    ensures g.job.postedDate == now + spec.daysAgo * Day
    ensures g.job.companyId == companyId && g.job.categoryId == categoryId && g.job.closingDate.None?
  {
    JobGraph(
      Job(0, spec.title, spec.description, spec.location, spec.salary, spec.jobType, spec.experienceLevel,
          spec.isFeatured, spec.isActive, now + spec.daysAgo * Day, None, companyId, categoryId, None),
      TagIds(spec.tagNames, dict),
      Items(spec.responsibilities),
      Items(spec.requirements),
      Items(spec.benefits))
  }

  // ----------------------------------------------------------- the saves

  function CategoriesFrom(rows: seq<Category>, firstId: int): (r: seq<Category>)
    ensures |r| == |rows| && forall i :: 0 <= i < |rows| ==> r[i] == rows[i].(id := firstId + i)
  {
    seq(|rows|, i requires 0 <= i < |rows| => rows[i].(id := firstId + i))
  }

  function TagsFrom(rows: seq<Tag>, firstId: int): (r: seq<Tag>)
    ensures |r| == |rows| && forall i :: 0 <= i < |rows| ==> r[i] == rows[i].(id := firstId + i)
  {
    seq(|rows|, i requires 0 <= i < |rows| => rows[i].(id := firstId + i))
  }

  function CompaniesFrom(rows: seq<Company>, firstId: int): (r: seq<Company>)
    ensures |r| == |rows| && forall i :: 0 <= i < |rows| ==> r[i] == rows[i].(id := firstId + i)
  {
    seq(|rows|, i requires 0 <= i < |rows| => rows[i].(id := firstId + i))
  }

  function UsersFrom(rows: seq<User>, firstId: int): (r: seq<User>)
    ensures |r| == |rows| && forall i :: 0 <= i < |rows| ==> r[i] == rows[i].(id := firstId + i)
  {
    seq(|rows|, i requires 0 <= i < |rows| => rows[i].(id := firstId + i))
  }

  function ItemsFrom(rows: seq<JobItem>, firstId: int, jobId: int): (r: seq<JobItem>)
    ensures |r| == |rows|
  {
    seq(|rows|, i requires 0 <= i < |rows| => rows[i].(id := firstId + i, jobId := jobId))
  }

  function LinkTag(jobId: int): int -> JobTag { (tagId: int) => JobTag(jobId, tagId) }

  /** The rows one job graph inserts: the job, its tag links and its three child lists. */
  function SaveJob(s: Store, g: JobGraph): (r: Store)
    ensures r.jobs == s.jobs + [g.job.(id := NextId(s.jobs, JobKey))]
    ensures r.categories == s.categories && r.tags == s.tags && r.companies == s.companies
    ensures r.users == s.users && r.applications == s.applications
  {
    var id := NextId(s.jobs, JobKey);
    s.(jobs := s.jobs + [g.job.(id := id)],
       jobTags := s.jobTags + Map(g.tagIds, LinkTag(id)),
       responsibilities := s.responsibilities + ItemsFrom(g.responsibilities, NextId(s.responsibilities, ItemKey), id),
       requirements := s.requirements + ItemsFrom(g.requirements, NextId(s.requirements, ItemKey), id),
       benefits := s.benefits + ItemsFrom(g.benefits, NextId(s.benefits, ItemKey), id))
  }

  /** `Jobs.AddRange(jobs)`: the graphs in list order. */
  function SaveJobs(s: Store, gs: seq<JobGraph>): (r: Store)
    ensures |r.jobs| == |s.jobs| + |gs| && r.jobs[..|s.jobs|] == s.jobs
    ensures forall i :: 0 <= i < |gs| ==> r.jobs[|s.jobs| + i] == gs[i].job.(id := r.jobs[|s.jobs| + i].id)
    ensures r.categories == s.categories && r.tags == s.tags && r.companies == s.companies
    ensures r.users == s.users && r.applications == s.applications
    decreases |gs|
  {
    if gs == [] then s
    else
      var t := SaveJob(s, gs[0]);
      var r := SaveJobs(t, gs[1..]);
      assert forall i :: 0 <= i < |gs| ==> r.jobs[|s.jobs| + i] == gs[i].job.(id := r.jobs[|s.jobs| + i].id) by {
        forall i | 0 <= i < |gs| ensures r.jobs[|s.jobs| + i] == gs[i].job.(id := r.jobs[|s.jobs| + i].id) {
          if i == 0 {
            assert r.jobs[|s.jobs|] == t.jobs[|s.jobs|];
          } else {
            assert gs[i] == gs[1..][i - 1];
            assert |s.jobs| + i == |t.jobs| + (i - 1);
          }
        }
      }
      r
  }

  // ------------------------------------------------------ the seeded data

  const CategorySeeds: seq<Category> := [
    Category(0, "Technology", Some("Software, IT, and tech jobs"), Some("Code2"), Some("bg-blue-500/10 text-blue-600"), None),
    Category(0, "Design", Some("UI/UX, graphic design jobs"), Some("Palette"), Some("bg-pink-500/10 text-pink-600"), None),
    Category(0, "Marketing", Some("Digital marketing, SEO jobs"), Some("Megaphone"), Some("bg-orange-500/10 text-orange-600"), None),
    Category(0, "Sales", Some("Sales and business development"), Some("TrendingUp"), Some("bg-green-500/10 text-green-600"), None),
    Category(0, "Finance", Some("Accounting and finance jobs"), Some("TrendingUp"), Some("bg-emerald-500/10 text-emerald-600"), None),
    Category(0, "Healthcare", Some("Medical and healthcare jobs"), Some("Stethoscope"), Some("bg-red-500/10 text-red-600"), None),
    Category(0, "Education", Some("Teaching and training jobs"), Some("GraduationCap"), Some("bg-purple-500/10 text-purple-600"), None),
    Category(0, "Real Estate", Some("Property and real estate jobs"), Some("Building2"), Some("bg-teal-500/10 text-teal-600"), None),
    Category(0, "Logistics", Some("Supply chain and logistics"), Some("Truck"), Some("bg-amber-500/10 text-amber-600"), None),
    Category(0, "Human Resources", Some("HR and recruitment jobs"), Some("Users"), Some("bg-indigo-500/10 text-indigo-600"), None)
  ]

  const TagSeeds: seq<Tag> := [
    Tag(0, "React"), Tag(0, "TypeScript"), Tag(0, "Node.js"), Tag(0, "Python"),
    Tag(0, "AWS"), Tag(0, "Docker"), Tag(0, "Kubernetes"), Tag(0, "PostgreSQL"),
    Tag(0, "MongoDB"), Tag(0, "GraphQL"), Tag(0, "REST API"), Tag(0, "Figma"),
    Tag(0, "Adobe XD"), Tag(0, "UI/UX"), Tag(0, "SEO"), Tag(0, "Google Analytics"),
    Tag(0, "Machine Learning"), Tag(0, "AI"), Tag(0, "Java"), Tag(0, "C#"),
    Tag(0, ".NET"), Tag(0, "Angular"), Tag(0, "Vue.js"), Tag(0, "Next.js"),
    Tag(0, "Tailwind CSS"), Tag(0, "SQL"), Tag(0, "Azure"), Tag(0, "GCP"),
    Tag(0, "Agile"), Tag(0, "Scrum"), Tag(0, "Git"), Tag(0, "CI/CD"),
    Tag(0, "Microservices"), Tag(0, "Leadership"), Tag(0, "Communication"), Tag(0, "Problem Solving")
  ]

  const CompanySeeds: seq<Company> := [
    Company(0, "TechCorp Inc.",
      "Leading technology company focused on innovative solutions. We build cutting-edge software that powers businesses worldwide.",
      "Technology", "San Francisco, CA", Some("https://ui-avatars.com/api/?name=TechCorp&background=3b82f6&color=fff&size=128"),
      Some("https://techcorp.com"), Some("1000-5000"), None, Some(450), 234, true, None),
    Company(0, "DesignStudio",
      "Award-winning design agency creating beautiful experiences. Our team of creative professionals delivers exceptional design solutions.",
      "Design", "New York, NY", Some("https://ui-avatars.com/api/?name=DesignStudio&background=ec4899&color=fff&size=128"),
      Some("https://designstudio.com"), Some("100-500"), None, Some(480), 156, true, None),
    Company(0, "StartupXYZ",
      "Fast-growing startup disrupting the fintech industry. Join us in revolutionizing how people manage their finances.",
      "FinTech", "Austin, TX", Some("https://ui-avatars.com/api/?name=StartupXYZ&background=10b981&color=fff&size=128"),
      Some("https://startupxyz.com"), Some("50-100"), None, Some(420), 89, true, None),
    Company(0, "CloudFirst",
      "Enterprise cloud solutions for modern businesses. We help companies migrate and thrive in the cloud.",
      "Cloud Computing", "Seattle, WA", Some("https://ui-avatars.com/api/?name=CloudFirst&background=6366f1&color=fff&size=128"),
      Some("https://cloudfirst.com"), Some("500-1000"), None, Some(460), 312, true, None),
    Company(0, "DataDriven Co.",
      "Transforming data into actionable insights. Our analytics platform helps businesses make smarter decisions.",
      "Data Analytics", "Boston, MA", Some("https://ui-avatars.com/api/?name=DataDriven&background=8b5cf6&color=fff&size=128"),
      Some("https://datadriven.co"), Some("200-500"), None, Some(440), 178, true, None),
    Company(0, "NeuralTech AI",
      "Pioneering AI solutions for enterprise applications. We're building the future of artificial intelligence.",
      "Artificial Intelligence", "Remote", Some("https://ui-avatars.com/api/?name=NeuralTech&background=f59e0b&color=fff&size=128"),
      Some("https://neuraltech.ai"), Some("100-200"), None, Some(470), 145, true, None),
    Company(0, "HealthPlus",
      "Digital health solutions improving patient outcomes. Our platform connects patients with healthcare providers seamlessly.",
      "Healthcare", "Chicago, IL", Some("https://ui-avatars.com/api/?name=HealthPlus&background=ef4444&color=fff&size=128"),
      Some("https://healthplus.com"), Some("500-1000"), None, Some(430), 267, true, None),
    Company(0, "EduTech Global",
      "Transforming education through technology. We make learning accessible to everyone, everywhere.",
      "Education", "Los Angeles, CA", Some("https://ui-avatars.com/api/?name=EduTech&background=a855f7&color=fff&size=128"),
      Some("https://edutech.global"), Some("200-500"), None, Some(450), 189, true, None),
    Company(0, "GreenEnergy Corp",
      "Sustainable energy solutions for a better tomorrow. Leading the transition to renewable energy.",
      "Energy", "Denver, CO", Some("https://ui-avatars.com/api/?name=GreenEnergy&background=22c55e&color=fff&size=128"),
      Some("https://greenenergy.com"), Some("1000-5000"), None, Some(440), 298, true, None),
    Company(0, "SecureNet",
      "Cybersecurity solutions protecting businesses worldwide. Your security is our priority.",
      "Cybersecurity", "Washington, DC", Some("https://ui-avatars.com/api/?name=SecureNet&background=64748b&color=fff&size=128"),
      Some("https://securenet.com"), Some("500-1000"), None, Some(460), 203, true, None),
    Company(0, "MediaWorks",
      "Creative media and entertainment company. We produce content that inspires and entertains millions.",
      "Media & Entertainment", "Miami, FL", Some("https://ui-avatars.com/api/?name=MediaWorks&background=f43f5e&color=fff&size=128"),
      Some("https://mediaworks.com"), Some("200-500"), None, Some(420), 134, true, None),
    Company(0, "LogiFlow",
      "Smart logistics and supply chain solutions. Optimizing the way goods move around the world.",
      "Logistics", "Atlanta, GA", Some("https://ui-avatars.com/api/?name=LogiFlow&background=0ea5e9&color=fff&size=128"),
      Some("https://logiflow.com"), Some("1000-5000"), None, Some(410), 276, true, None)
  ]

  const Job01 := JobSeed("Senior Frontend Developer",
      "We're looking for a talented Senior Frontend Developer to join our growing team. You'll work on cutting-edge projects using React and TypeScript, building responsive and performant web applications.",
      "San Francisco, CA", "$120,000 - $160,000", "Full-time", "Senior", true, true, -2, 0, Tech,
      ["React", "TypeScript", "Next.js", "Tailwind CSS"],
      ["Design and implement scalable frontend solutions", "Collaborate with cross-functional teams", "Mentor junior developers", "Participate in code reviews", "Optimize application performance"],
      ["5+ years of frontend development experience", "Strong proficiency in React and TypeScript", "Experience with state management (Redux, Zustand)", "Knowledge of modern CSS frameworks"],
      ["Competitive salary and equity", "Comprehensive health insurance", "Flexible work arrangements", "Professional development budget", "401k matching"])
  const Job02 := JobSeed("Full Stack Engineer",
      "Join our engineering team to build innovative products that impact millions of users. You'll work across the entire stack.",
      "Remote", "$100,000 - $140,000", "Contract", "Mid Level", true, true, -5, 2, Tech,
      ["Node.js", "React", "AWS", "PostgreSQL"],
      ["Build and maintain full-stack applications", "Write clean, maintainable code", "Design database schemas", "Implement RESTful APIs"],
      ["3+ years of full-stack development", "Experience with Node.js and React", "Database design skills", "Cloud platform experience"],
      ["Remote-first culture", "Stock options", "Unlimited PTO", "Home office stipend"])
  const Job03 := JobSeed("Backend Engineer - Python",
      "Build robust backend systems using Python and modern frameworks. Join our data platform team.",
      "Boston, MA", "$110,000 - $150,000", "Part-time", "Mid Level", true, true, -3, 4, Tech,
      ["Python", "PostgreSQL", "Docker", "AWS"],
      ["Develop and maintain Python microservices", "Design and optimize database queries", "Build data processing pipelines", "Write comprehensive tests"],
      ["3+ years Python development", "Experience with FastAPI or Django", "Strong SQL skills", "Docker and containerization"],
      ["Competitive compensation", "Learning budget", "Flexible hours", "Health and dental"])
  const Job04 := JobSeed("DevOps Engineer",
      "Build and maintain our cloud infrastructure and CI/CD pipelines. Help us scale to millions of users.",
      "Seattle, WA", "$130,000 - $170,000", "Full-time", "Senior", true, true, -7, 3, Tech,
      ["AWS", "Kubernetes", "Docker", "CI/CD"],
      ["Manage AWS infrastructure", "Implement CI/CD pipelines", "Monitor system performance", "Automate deployment processes"],
      ["5+ years of DevOps experience", "Strong AWS knowledge", "Kubernetes expertise", "Infrastructure as Code"],
      ["AWS certification sponsorship", "Competitive salary", "Stock options", "Conference attendance"])
  const Job05 := JobSeed("Machine Learning Engineer",
      "Join our AI team to build and deploy machine learning models at scale. Work on cutting-edge problems.",
      "Remote", "$140,000 - $190,000", "Full-time", "Senior", true, true, -1, 5, Tech,
      ["Python", "Machine Learning", "AI", "AWS"],
      ["Design and implement ML models", "Build data pipelines for model training", "Deploy models to production", "Collaborate with research team"],
      ["MS/PhD in Computer Science or related field", "Experience with TensorFlow/PyTorch", "Strong Python skills", "ML production experience"],
      ["Cutting-edge projects", "Research time", "Publication support", "Top-tier compensation"])
  const Job06 := JobSeed("iOS Developer",
      "Create beautiful, performant iOS applications used by millions. Join our mobile team.",
      "New York, NY", "$115,000 - $155,000", "Contract", "Mid Level", false, true, -4, 0, Tech,
      ["React", "TypeScript"],
      ["Develop iOS applications using Swift", "Implement new features", "Optimize app performance", "Work with design team"],
      ["3+ years iOS development", "Swift and SwiftUI proficiency", "App Store publishing experience", "Unit testing skills"],
      ["Latest Apple hardware", "App Store features", "Great team culture", "Health benefits"])
  const Job07 := JobSeed("Android Developer",
      "Build Android applications that delight users. Work with the latest Android technologies.",
      "Austin, TX", "$110,000 - $150,000", "Freelance", "Mid Level", false, true, -6, 2, Tech,
      ["Java"],
      ["Develop Android applications", "Write clean Kotlin code", "Implement Material Design", "Performance optimization"],
      ["3+ years Android development", "Kotlin expertise", "Jetpack Compose knowledge", "Testing experience"],
      ["Startup equity", "Flexible schedule", "Learning opportunities", "Team events"])
  const Job08 := JobSeed("Software Engineer - Java",
      "Join our enterprise team building robust Java applications for Fortune 500 clients.",
      "Chicago, IL", "$100,000 - $140,000", "Part-time", "Mid Level", false, true, -8, 6, Tech,
      ["Java", ".NET", "SQL"],
      ["Develop Java applications", "Design system architecture", "Code reviews", "Technical documentation"],
      ["3+ years Java experience", "Spring Boot knowledge", "Microservices architecture", "Agile experience"],
      ["Enterprise clients", "Stable environment", "Growth path", "Benefits package"])
  const Job09 := JobSeed("Security Engineer",
      "Protect our systems and data. Join our world-class security team.",
      "Washington, DC", "$125,000 - $165,000", "Full-time", "Senior", true, true, -2, 9, Tech,
      ["Python", "AWS", "Docker"],
      ["Conduct security assessments", "Implement security controls", "Incident response", "Security training"],
      ["5+ years security experience", "Security certifications (CISSP, etc.)", "Penetration testing skills", "Cloud security knowledge"],
      ["Important mission", "Cert sponsorship", "Competitive pay", "Government contracts"])
  const Job10 := JobSeed("Data Engineer",
      "Build data infrastructure that powers business decisions. Work with petabytes of data.",
      "San Francisco, CA", "$120,000 - $160,000", "Contract", "Mid Level", false, true, -5, 4, Tech,
      ["Python", "SQL", "AWS", "Docker"],
      ["Build data pipelines", "Design data warehouse", "ETL processes", "Data quality monitoring"],
      ["3+ years data engineering", "SQL expertise", "Spark/Airflow experience", "Cloud platforms"],
      ["Data-driven culture", "Latest tools", "Smart colleagues", "Good compensation"])
  const Job11 := JobSeed("UI/UX Designer",
      "Create beautiful, intuitive designs for web and mobile applications. Join our award-winning design team.",
      "New York, NY", "$90,000 - $130,000", "Full-time", "Mid Level", true, true, -3, 1, Design,
      ["Figma", "UI/UX", "Adobe XD"],
      ["Create wireframes and prototypes", "Conduct user research", "Design system maintenance", "Collaborate with developers"],
      ["3+ years of UI/UX design experience", "Proficiency in Figma", "Portfolio required", "User research skills"],
      ["Creative work environment", "Annual design conference", "Latest design tools", "Flexible hours"])
  const Job12 := JobSeed("Senior Product Designer",
      "Lead design initiatives for our flagship products. Shape the future of our user experience.",
      "San Francisco, CA", "$130,000 - $170,000", "Full-time", "Senior", true, true, -1, 1, Design,
      ["Figma", "UI/UX"],
      ["Lead product design initiatives", "Mentor junior designers", "Define design strategy", "User testing"],
      ["5+ years product design", "Leadership experience", "Strong portfolio", "Design systems expertise"],
      ["Design leadership role", "High impact work", "Great compensation", "Creative freedom"])
  const Job13 := JobSeed("Brand Designer",
      "Define and evolve our visual identity. Create stunning brand assets across all channels.",
      "Los Angeles, CA", "$80,000 - $110,000", "Freelance", "Mid Level", false, true, -9, 10, Design,
      ["Adobe XD", "Figma"],
      ["Create brand guidelines", "Design marketing materials", "Social media graphics", "Video graphics"],
      ["3+ years brand design", "Adobe Creative Suite", "Motion graphics a plus", "Strong portfolio"],
      ["Creative industry", "Exciting projects", "Collaborative team", "Benefits package"])
  const Job14 := JobSeed("Motion Designer",
      "Create engaging animations and motion graphics for digital products and marketing.",
      "Remote", "$85,000 - $120,000", "Contract", "Mid Level", false, true, -4, 10, Design,
      ["Figma", "UI/UX"],
      ["Create animations for products", "Video editing", "Design animated ads", "Collaborate with marketing"],
      ["After Effects expertise", "3+ years motion design", "Video editing skills", "Creative portfolio"],
      ["Remote work", "Creative projects", "Flexible schedule", "Equipment provided"])
  const Job15 := JobSeed("Digital Marketing Manager",
      "Lead our digital marketing strategy across all channels. Drive growth and brand awareness.",
      "New York, NY", "$90,000 - $130,000", "Full-time", "Senior", true, true, -2, 0, Marketing,
      ["SEO", "Google Analytics"],
      ["Develop marketing strategy", "Manage paid campaigns", "SEO optimization", "Analytics and reporting"],
      ["5+ years digital marketing", "Google Ads certification", "Analytics expertise", "Team management"],
      ["Marketing budget", "Growth opportunity", "Great team", "Competitive salary"])
  const Job16 := JobSeed("Content Marketing Specialist",
      "Create compelling content that drives engagement and conversions. Tell our brand story.",
      "Remote", "$65,000 - $90,000", "Part-time", "Mid Level", false, true, -6, 7, Marketing,
      ["SEO", "Google Analytics"],
      ["Write blog posts and articles", "Social media content", "Email campaigns", "Content strategy"],
      ["3+ years content marketing", "Strong writing skills", "SEO knowledge", "Social media experience"],
      ["Remote work", "Creative freedom", "Learning budget", "Flexible hours"])
  const Job17 := JobSeed("SEO Specialist",
      "Optimize our web presence for search engines. Drive organic traffic and improve rankings.",
      "Boston, MA", "$70,000 - $100,000", "Freelance", "Mid Level", false, true, -8, 4, Marketing,
      ["SEO", "Google Analytics"],
      ["Technical SEO audits", "Keyword research", "Link building", "Performance tracking"],
      ["3+ years SEO experience", "Technical SEO skills", "Analytics tools", "Content optimization"],
      ["Data-driven team", "Growth company", "Good benefits", "Development opportunities"])
  const Job18 := JobSeed("Financial Analyst",
      "Analyze financial data and provide insights to drive business decisions. Join our finance team.",
      "Chicago, IL", "$75,000 - $100,000", "Contract", "Mid Level", false, true, -5, 6, Finance,
      ["SQL", "Python"],
      ["Financial modeling", "Budget analysis", "Reporting", "Forecasting"],
      ["3+ years financial analysis", "Excel expertise", "SQL skills preferred", "CFA a plus"],
      ["Growth path", "Bonus structure", "Health benefits", "401k match"])
  const Job19 := JobSeed("Senior Accountant",
      "Manage accounting operations and ensure financial accuracy. Lead month-end close process.",
      "Denver, CO", "$80,000 - $110,000", "Full-time", "Senior", false, true, -7, 8, Finance,
      ["SQL"],
      ["Month-end close", "Financial reporting", "Audit support", "Process improvement"],
      ["CPA required", "5+ years accounting", "ERP experience", "GAAP knowledge"],
      ["Stable company", "Work-life balance", "Professional development", "Good benefits"])
  const Job20 := JobSeed("Account Executive",
      "Drive revenue growth by acquiring new customers and expanding existing accounts.",
      "Austin, TX", "$70,000 - $120,000 + Commission", "Full-time", "Mid Level", true, true, -3, 2, Sales,
      ["Communication", "Leadership"],
      ["Prospect new clients", "Manage sales pipeline", "Close deals", "Client relationships"],
      ["3+ years B2B sales", "SaaS experience preferred", "CRM proficiency", "Strong communication"],
      ["Uncapped commission", "President's Club trips", "Fast growth", "Great culture"])
  const Job21 := JobSeed("Sales Development Representative",
      "Generate qualified leads and book meetings for our sales team. Start your sales career.",
      "Remote", "$50,000 - $70,000 + Bonus", "Internship", "Entry Level", false, true, -4, 2, Sales,
      ["Communication"],
      ["Cold outreach", "Lead qualification", "Book meetings", "CRM updates"],
      ["1+ years in sales or customer service", "Strong communication", "Coachable attitude", "Tech-savvy"],
      ["Career path to AE", "Training provided", "Remote work", "Team environment"])
  const Job22 := JobSeed("Healthcare Data Analyst",
      "Analyze healthcare data to improve patient outcomes. Work with clinical teams.",
      "Chicago, IL", "$85,000 - $115,000", "Part-time", "Mid Level", false, true, -6, 6, Healthcare,
      ["Python", "SQL"],
      ["Analyze clinical data", "Create dashboards", "Support research", "Data quality"],
      ["Healthcare analytics experience", "SQL proficiency", "HIPAA knowledge", "Statistics background"],
      ["Meaningful work", "Health benefits", "Research opportunities", "Stable employer"])
  const Job23 := JobSeed("Product Manager - Healthcare",
      "Lead product development for our healthcare platform. Improve patient care through technology.",
      "Remote", "$120,000 - $160,000", "Full-time", "Senior", true, true, -2, 6, Healthcare,
      ["Agile", "Leadership"],
      ["Define product roadmap", "Work with engineering", "User research", "Stakeholder management"],
      ["5+ years product management", "Healthcare experience", "Technical background", "Strong communication"],
      ["Impact healthcare", "Remote work", "Great compensation", "Mission-driven"])
  const Job24 := JobSeed("Curriculum Developer",
      "Create engaging educational content for our learning platform. Shape how millions learn.",
      "Los Angeles, CA", "$70,000 - $95,000", "Contract", "Mid Level", false, true, -5, 7, Education,
      ["Communication"],
      ["Develop course content", "Create assessments", "Work with instructors", "Content updates"],
      ["Education background", "Instructional design", "Writing skills", "EdTech experience"],
      ["Impact education", "Creative work", "Good benefits", "Learning culture"])
  const Job25 := JobSeed("Senior Instructional Designer",
      "Design learning experiences that engage and educate. Lead instructional design initiatives.",
      "Remote", "$85,000 - $115,000", "Full-time", "Senior", false, true, -3, 7, Education,
      ["Communication", "Leadership"],
      ["Lead ID projects", "Mentor team", "Learning strategy", "Technology integration"],
      ["5+ years instructional design", "LMS experience", "Multimedia skills", "Leadership experience"],
      ["Remote work", "Meaningful impact", "Growth opportunities", "Collaborative team"])
  const Job26 := JobSeed("Technical Recruiter",
      "Source and hire top tech talent. Partner with hiring managers to build amazing teams.",
      "San Francisco, CA", "$80,000 - $120,000", "Contract", "Mid Level", false, true, -4, 0, HumanResources,
      ["Communication", "Leadership"],
      ["Source candidates", "Conduct interviews", "Manage pipeline", "Hiring partnerships"],
      ["3+ years tech recruiting", "ATS experience", "Technical understanding", "Strong network"],
      ["Fast-paced environment", "Bonus structure", "Great team", "Career growth"])
  const Job27 := JobSeed("HR Business Partner",
      "Partner with business leaders to drive HR initiatives and support organizational goals.",
      "Seattle, WA", "$95,000 - $130,000", "Full-time", "Senior", false, true, -6, 3, HumanResources,
      ["Leadership", "Communication"],
      ["HR strategy", "Employee relations", "Performance management", "Change management"],
      ["5+ years HR experience", "HRBP experience", "Employment law knowledge", "Strong communication"],
      ["Strategic role", "Growing company", "Great benefits", "Development opportunities"])
  const Job28 := JobSeed("Site Reliability Engineer",
      "Ensure our systems are reliable, scalable, and performant. Build the infrastructure of the future.",
      "Seattle, WA", "$140,000 - $180,000", "Full-time", "Senior", true, true, -1, 3, Tech,
      ["AWS", "Kubernetes", "Python", "Docker"],
      ["Maintain system reliability", "Incident response", "Automation", "Capacity planning"],
      ["5+ years SRE/DevOps", "Strong coding skills", "Cloud expertise", "On-call experience"],
      ["Top compensation", "Interesting problems", "Great team", "Work-life balance"])
  const Job29 := JobSeed("Engineering Manager",
      "Lead a team of talented engineers. Drive technical excellence and team growth.",
      "San Francisco, CA", "$180,000 - $230,000", "Full-time", "Lead", true, true, -2, 0, Tech,
      ["Leadership", "Agile", "Scrum"],
      ["Lead engineering team", "Technical direction", "Hiring and development", "Cross-team collaboration"],
      ["5+ years engineering experience", "2+ years management", "Strong technical background", "Leadership skills"],
      ["Leadership role", "High impact", "Excellent compensation", "Equity package"])
  const Job30 := JobSeed("Junior Frontend Developer",
      "Start your career building web applications with React. Great opportunity to learn and grow.",
      "Remote", "$60,000 - $80,000", "Internship", "Entry Level", false, true, -3, 2, Tech,
      ["React", "TypeScript", "Git"],
      ["Build UI components", "Fix bugs", "Write tests", "Code reviews"],
      ["CS degree or bootcamp", "JavaScript knowledge", "React basics", "Eagerness to learn"],
      ["Mentorship program", "Learning budget", "Remote work", "Growth path"])
  const Job31 := JobSeed("QA Engineer",
      "Ensure product quality through comprehensive testing. Build test automation frameworks.",
      "Austin, TX", "$85,000 - $115,000", "Part-time", "Mid Level", false, true, -5, 2, Tech,
      ["Python", "Git"],
      ["Create test plans", "Automation testing", "Bug tracking", "Quality processes"],
      ["3+ years QA experience", "Test automation", "Selenium/Cypress", "API testing"],
      ["Quality-focused culture", "Modern tools", "Growth opportunity", "Good benefits"])
  const Job32 := JobSeed("Technical Writer",
      "Create clear, comprehensive documentation for our products and APIs.",
      "Remote", "$75,000 - $100,000", "Freelance", "Mid Level", false, true, -7, 3, Tech,
      ["Communication", "Git"],
      ["Write documentation", "API docs", "User guides", "Release notes"],
      ["3+ years technical writing", "API documentation", "Developer audience", "Clear communication"],
      ["Remote work", "Great product", "Flexible hours", "Learning opportunities"])
  const Job33 := JobSeed("VP of Engineering",
      "Lead our entire engineering organization. Set technical strategy and build world-class teams.",
      "San Francisco, CA", "$280,000 - $350,000", "Full-time", "Executive", true, true, -1, 0, Tech,
      ["Leadership", "Agile"],
      ["Lead engineering org", "Technical strategy", "Executive leadership", "Hiring and scaling"],
      ["10+ years engineering", "5+ years leadership", "Scaled teams", "Strategic thinking"],
      ["Executive role", "Board interaction", "Significant equity", "High impact"])
  /** The jobs under "Technology Jobs". */
  const TechnologyJobs: seq<JobSeed> := [Job01, Job02, Job03, Job04, Job05, Job06, Job07, Job08, Job09, Job10]

  /** The jobs under "Design Jobs" and "Marketing Jobs". */
  const DesignMarketingJobs: seq<JobSeed> := [Job11, Job12, Job13, Job14, Job15, Job16, Job17]

  /** The jobs under "Finance Jobs", "Sales Jobs", "Healthcare Jobs", "Education Jobs" and "HR Jobs". */
  const ServiceJobs: seq<JobSeed> := [Job18, Job19, Job20, Job21, Job22, Job23, Job24, Job25, Job26, Job27]

  /** The jobs under "More Tech Jobs for variety". */
  const MoreTechJobs: seq<JobSeed> := [Job28, Job29, Job30, Job31, Job32, Job33]

  /** The data `SeedAsync` inserts. */
  const Demo := SeedData(CategorySeeds, TagSeeds, CompanySeeds, TechnologyJobs + DesignMarketingJobs + ServiceJobs + MoreTechJobs)

  // ------------------------------------------------------------- SeedAsync

  /** What `SeedAsync` inserts: the rows of the first three saves and the arguments of the `CreateJob` calls. */
  datatype SeedData = SeedData(categories: seq<Category>, tags: seq<Tag>, companies: seq<Company>, jobs: seq<JobSeed>)

  /** The three sample users; only the employer belongs to a company, `companies[0]`. */
  function UserSeeds(companyId: int): (r: seq<User>)
    ensures |r| == 3
    ensures forall k :: 0 <= k < 3 ==> (r[k].companyId.Some? <==> r[k].role == "Employer")
    ensures r[2].role == "Employer" && r[2].companyId == Some(companyId)
    ensures forall k :: 0 <= k < 3 ==> r[k].isActive && r[k].passwordHash == "hashed"
  {
    [User(0, "john.doe@email.com", "hashed", "John", "Doe", None, None, "JobSeeker", true, None, None, None),
     User(0, "jane.smith@email.com", "hashed", "Jane", "Smith", None, None, "JobSeeker", true, None, None, None),
     User(0, "employer@techcorp.com", "hashed", "Tech", "Employer", None, None, "Employer", true, None, Some(companyId), None)]
  }

  /** `First` on a list with no matching element. */
  const NoMatch := Exception(InvalidOperation, "Sequence contains no matching element")

  /** `ToDictionary` meeting a key twice. */
  const DuplicateKey := Exception(Argument, "An item with the same key has already been added.")

  /** A `List` indexer past the end. */
  const IndexOutOfRange :=
    Exception(ArgumentOutOfRange, "Index was out of range. Must be non-negative and less than the size of the collection. (Parameter 'index')")

  function Named(name: string): Category -> bool { (c: Category) => c.name == name }

  /** Every `categories.First(c => c.Name == ...)` finds its category. */
  predicate CategoriesFound(cats: seq<Category>) {
    forall v: CategoryVar :: Any(cats, Named(VarName(v)))
  }

  /** The id of the category a job's category variable holds. */
  function CategoryIdOf(cats: seq<Category>, v: CategoryVar): (id: int)
    requires CategoriesFound(cats)
    ensures exists c | c in cats :: c.name == VarName(v) && c.id == id
  {
    FirstWhere(cats, Named(VarName(v))).value.id
  }

  /**
   * The job list: one `CreateJob` call per seed, in order; a company index
   * past the seeded companies throws.
   */
  function BuildJobs(specs: seq<JobSeed>, companies: seq<Company>, cats: seq<Category>, dict: map<string, Tag>, now: int)
    : (r: Result<seq<JobGraph>, Exception>)
    requires CategoriesFound(cats)
    ensures r.Ok? <==> forall k :: 0 <= k < |specs| ==> specs[k].company < |companies|
    ensures r.Err? ==> r.error == IndexOutOfRange
    ensures r.Ok? ==> |r.value| == |specs| && forall k :: 0 <= k < |specs| ==>
      r.value[k] == CreateJob(specs[k], companies[specs[k].company].id, CategoryIdOf(cats, specs[k].category), dict, now)
  {
    BuildEach(specs, companies, JobMaker(cats, dict, now))
  }

  /** `CreateJob` with the category looked up and the tag dictionary and the clock fixed. */
  function JobMaker(cats: seq<Category>, dict: map<string, Tag>, now: int): (JobSeed, int) -> JobGraph
    requires CategoriesFound(cats)
  {
    (spec: JobSeed, companyId: int) => CreateJob(spec, companyId, CategoryIdOf(cats, spec.category), dict, now)
  }

  /** The loop over the seeds: `mk` with each seed's company id, in order; an index past the companies throws. */
  function BuildEach(specs: seq<JobSeed>, companies: seq<Company>, mk: (JobSeed, int) -> JobGraph)
    : (r: Result<seq<JobGraph>, Exception>)
    ensures r.Ok? <==> forall k :: 0 <= k < |specs| ==> specs[k].company < |companies|
    ensures r.Err? ==> r.error == IndexOutOfRange
    ensures r.Ok? ==> |r.value| == |specs| && forall k :: 0 <= k < |specs| ==>
      r.value[k] == mk(specs[k], companies[specs[k].company].id)
    decreases |specs|
  {
    if specs == [] then Ok([])
    else if specs[0].company >= |companies| then Err(IndexOutOfRange)
    else
      match BuildEach(specs[1..], companies, mk)
      case Err(e) =>
        assert !(forall k :: 0 <= k < |specs| ==> specs[k].company < |companies|) by {
          var k :| 0 <= k < |specs[1..]| && specs[1..][k].company >= |companies|;
          assert specs[k + 1] == specs[1..][k];
        }
        Err(e)
      case Ok(rest) =>
        var r := [mk(specs[0], companies[specs[0].company].id)] + rest;
        assert forall k :: 0 <= k < |specs| ==>
          specs[k].company < |companies| && r[k] == mk(specs[k], companies[specs[k].company].id) by {
          forall k | 0 < k < |specs|
            ensures specs[k].company < |companies| && r[k] == mk(specs[k], companies[specs[k].company].id)
          {
            assert specs[k] == specs[1..][k - 1];
            assert r[k] == rest[k - 1];
          }
        }
        Ok(r)
  }

  /** No job links one tag twice; otherwise the change tracker refuses the second link. */
  predicate LinksDistinct(gs: seq<JobGraph>) {
    forall k :: 0 <= k < |gs| ==> forall i, j :: 0 <= i < j < |gs[k].tagIds| ==> gs[k].tagIds[i] != gs[k].tagIds[j]
  }

  /** The job row `CreateJob` makes of a seed, whatever id the database gave it. */
  predicate JobOf(j: Job, spec: JobSeed, companyId: int, now: int) {
    && j.title == spec.title && j.description == spec.description && j.location == spec.location
    && j.salary == spec.salary && j.jobType == spec.jobType && j.experienceLevel == spec.experienceLevel
    && j.isFeatured == spec.isFeatured && j.isActive == spec.isActive
    && j.postedDate == now + spec.daysAgo * Day && j.closingDate.None? && j.updatedAt.None?
    && j.companyId == companyId
  }

  /**
   * A completed seed of a store with no jobs: each table gets the seeded rows
   * after its own, with fresh identity values, the jobs are built from their
   * seeds in order, and the employer belongs to the first seeded company.
   */
  predicate Seeded(s: Store, t: Store, now: int, data: SeedData) {
    && t.categories == s.categories + CategoriesFrom(data.categories, NextId(s.categories, CategoryKey))
    && RestSeeded(s, t, now, data)
  }

  /** The part of `Seeded` after the categories. */
  predicate RestSeeded(s: Store, t: Store, now: int, data: SeedData) {
    && t.tags == s.tags + TagsFrom(data.tags, NextId(s.tags, TagKey))
    && SeededFromCompanies(s, t, now, data)
  }

  /** The part of `RestSeeded` after the tags. */
  predicate SeededFromCompanies(s: Store, t: Store, now: int, data: SeedData) {
    && t.companies == s.companies + CompaniesFrom(data.companies, NextId(s.companies, CompanyKey))
    && |t.jobs| == |s.jobs| + |data.jobs|
    && (forall k :: 0 <= k < |data.jobs| ==>
          data.jobs[k].company < |data.companies|
          && JobOf(t.jobs[|s.jobs| + k], data.jobs[k], t.companies[|s.companies| + data.jobs[k].company].id, now))
    && |data.companies| > 0
    && t.users == s.users + UsersFrom(UserSeeds(t.companies[|s.companies|].id), NextId(s.users, UserKey))
  }

  lemma CreatedJobOf(spec: JobSeed, companyId: int, categoryId: int, dict: map<string, Tag>, now: int, id: int)
    ensures JobOf(CreateJob(spec, companyId, categoryId, dict, now).job.(id := id), spec, companyId, now)
  {
  }

  /** `SeededFromCompanies` reads only the companies, jobs and users of the store it starts from. */
  lemma SeededFromCompaniesFrame(s: Store, s': Store, t: Store, now: int, data: SeedData)
    requires s.companies == s'.companies && s.jobs == s'.jobs && s.users == s'.users
    ensures SeededFromCompanies(s, t, now, data) == SeededFromCompanies(s', t, now, data)
  {
  }

  /** `RestSeeded` reads only the tags, companies, jobs and users of the store it starts from. */
  lemma RestSeededFrame(s: Store, s': Store, t: Store, now: int, data: SeedData)
    requires s.tags == s'.tags && s.companies == s'.companies && s.jobs == s'.jobs && s.users == s'.users
    ensures RestSeeded(s, t, now, data) == RestSeeded(s', t, now, data)
  {
    SeededFromCompaniesFrame(s, s', t, now, data);
  }

  /** The fifth save: the sample users, the employer in `companies[0]`. */
  function SeedUsers(s4: Store, companies: seq<Company>): (r: Outcome<()>)
    ensures r.store == s4.(users := r.store.users)
    ensures r.result.Ok? ==>
      |companies| > 0 && r.store.users == s4.users + UsersFrom(UserSeeds(companies[0].id), NextId(s4.users, UserKey))
    ensures Valid(s4) ==> Valid(r.store)
  {
    if |companies| == 0 then Outcome(Err(IndexOutOfRange), s4)
    else
      var users := UsersFrom(UserSeeds(companies[0].id), NextId(s4.users, UserKey));
      match Commit(s4.(users := s4.users + users))
      case Err(e) => Outcome(Err(e), s4)
      case Ok(s5) => Outcome(Ok(()), s5)
  }

  /** The fourth save: the jobs with their tag links and child rows; then the users. */
  function SeedGraphs(s3: Store, gs: seq<JobGraph>, companies: seq<Company>): (r: Outcome<()>)
    ensures r.store.categories == s3.categories && r.store.tags == s3.tags && r.store.companies == s3.companies
    ensures r.result.Ok? ==> |r.store.jobs| == |s3.jobs| + |gs| && forall k :: 0 <= k < |gs| ==>
      r.store.jobs[|s3.jobs| + k] == gs[k].job.(id := r.store.jobs[|s3.jobs| + k].id)
    ensures r.result.Ok? ==>
      |companies| > 0 && r.store.users == s3.users + UsersFrom(UserSeeds(companies[0].id), NextId(s3.users, UserKey))
    ensures Valid(s3) ==> Valid(r.store)
  {
    if !LinksDistinct(gs) then Outcome(Err(TrackingConflict), s3)
    else
      match Commit(SaveJobs(s3, gs))
      case Err(e) => Outcome(Err(e), s3)
      case Ok(s4) => SeedUsers(s4, companies)
  }

  /** The lookups, the tag dictionary and the job list, then the last two saves. */
  function SeedJobsAndUsers(s3: Store, now: int, cats: seq<Category>, tags: seq<Tag>, companies: seq<Company>, specs: seq<JobSeed>)
    : (r: Outcome<()>)
    ensures r.store.categories == s3.categories && r.store.tags == s3.tags && r.store.companies == s3.companies
    ensures r.result.Ok? ==> |r.store.jobs| == |s3.jobs| + |specs| && forall k :: 0 <= k < |specs| ==>
      specs[k].company < |companies| && JobOf(r.store.jobs[|s3.jobs| + k], specs[k], companies[specs[k].company].id, now)
    ensures r.result.Ok? ==>
      |companies| > 0 && r.store.users == s3.users + UsersFrom(UserSeeds(companies[0].id), NextId(s3.users, UserKey))
    ensures Valid(s3) ==> Valid(r.store)
  {
    if !CategoriesFound(cats) then Outcome(Err(NoMatch), s3)
    else match ToDictionary(tags)
    case None => Outcome(Err(DuplicateKey), s3)
    case Some(dict) =>
      match BuildJobs(specs, companies, cats, dict, now)
      case Err(e) => Outcome(Err(e), s3)
      case Ok(gs) =>
        var r := SeedGraphs(s3, gs, companies);
        assert r.result.Ok? ==> forall k :: 0 <= k < |specs| ==>
          specs[k].company < |companies| && JobOf(r.store.jobs[|s3.jobs| + k], specs[k], companies[specs[k].company].id, now) by {
          if r.result.Ok? {
            forall k | 0 <= k < |specs|
              ensures specs[k].company < |companies| && JobOf(r.store.jobs[|s3.jobs| + k], specs[k], companies[specs[k].company].id, now)
            {
              CreatedJobOf(specs[k], companies[specs[k].company].id, CategoryIdOf(cats, specs[k].category), dict, now, r.store.jobs[|s3.jobs| + k].id);
            }
          }
        }
        r
  }

  /** The third save: the companies; then the jobs and the users. */
  function SeedCompanies(s2: Store, now: int, data: SeedData, cats: seq<Category>, tags: seq<Tag>): (r: Outcome<()>)
    ensures r.store.categories == s2.categories && r.store.tags == s2.tags
    ensures r.result.Ok? ==> SeededFromCompanies(s2, r.store, now, data)
    ensures Valid(s2) ==> Valid(r.store)
  {
    var companies := CompaniesFrom(data.companies, NextId(s2.companies, CompanyKey));
    match Commit(s2.(companies := s2.companies + companies))
    case Err(e) => Outcome(Err(e), s2)
    case Ok(s3) =>
      var r := SeedJobsAndUsers(s3, now, cats, tags, companies, data.jobs);
      assert r.result.Ok? ==> SeededFromCompanies(s2, r.store, now, data) by {
        if r.result.Ok? {
          var t := r.store;
          assert t.companies == s2.companies + companies;
          forall k | 0 <= k < |data.jobs|
            ensures data.jobs[k].company < |data.companies|
            ensures JobOf(t.jobs[|s2.jobs| + k], data.jobs[k], t.companies[|s2.companies| + data.jobs[k].company].id, now)
          {
            assert t.companies[|s2.companies| + data.jobs[k].company] == companies[data.jobs[k].company];
          }
          assert t.companies[|s2.companies|] == companies[0];
        }
      }
      r
  }

  /** The second save: the tags; then the rest. */
  function SeedAfterCategories(s1: Store, now: int, data: SeedData, cats: seq<Category>): (r: Outcome<()>)
    ensures r.store.categories == s1.categories
    ensures r.result.Ok? ==> RestSeeded(s1, r.store, now, data)
    ensures Valid(s1) ==> Valid(r.store)
  {
    var tags := TagsFrom(data.tags, NextId(s1.tags, TagKey));
    match Commit(s1.(tags := s1.tags + tags))
    case Err(e) => Outcome(Err(e), s1)
    case Ok(s2) =>
      var r := SeedCompanies(s2, now, data, cats, tags);
      SeededFromCompaniesFrame(s2, s1, r.store, now, data);
      r
  }

  /**
   * `SeedAsync`: nothing when a job exists; otherwise five saves, each
   * committing on its own, so a failing save keeps what the earlier ones
   * committed.
   */
  function Seed(s: Store, now: int, data: SeedData): (r: Outcome<()>)
    ensures |s.jobs| > 0 ==> r == Outcome(Ok(()), s)
    ensures |s.jobs| == 0 && r.result.Ok? ==> Seeded(s, r.store, now, data)
    ensures Valid(s) ==> Valid(r.store)
  {
    if |s.jobs| > 0 then Outcome(Ok(()), s)
    else
      var cats := CategoriesFrom(data.categories, NextId(s.categories, CategoryKey));
      match Commit(s.(categories := s.categories + cats))
      case Err(e) => Outcome(Err(e), s)
      case Ok(s1) =>
        var r := SeedAfterCategories(s1, now, data, cats);
        RestSeededFrame(s1, s, r.store, now, data);
        r
  }

  // ------------------------------------------------------------ properties

  /**
   * Seeding again, at any later instant, changes nothing: a store with a
   * job is left alone, and a store the first run left without jobs already
   * holds the seeded category names, so the first save of the second run
   * breaks the unique index and commits nothing.
   */
  lemma SeedIdempotent(s: Store, now: int, later: int, data: SeedData)
    requires |data.categories| > 0
    ensures Seed(Seed(s, now, data).store, later, data).store == Seed(s, now, data).store
  {
    var t := Seed(s, now, data).store;
    if |s.jobs| == 0 && |t.jobs| == 0 {
      var cats := CategoriesFrom(data.categories, NextId(s.categories, CategoryKey));
      var s1 := s.(categories := s.categories + cats);
      if Valid(s1) {
        assert t == SeedAfterCategories(s1, now, data, cats).store;
        assert t.categories == s.categories + cats;
        var again := CategoriesFrom(data.categories, NextId(t.categories, CategoryKey));
        var p := t.(categories := t.categories + again);
        assert cats[0] in t.categories;
        assert cats[0].id < again[0].id;
        assert cats[0] in p.categories && again[0] in p.categories;
        NotUniqueBy(p.categories, CategoryName, cats[0], again[0]);
        assert Seed(t, later, data) == Outcome(Err(SaveFailed), t);
      } else {
        assert t == s;
        assert Seed(s, later, data) == Outcome(Err(SaveFailed), s);
      }
    }
  }

  /** A completed seed adds exactly the seeded rows to each table. */
  lemma SeedCounts(s: Store, t: Store, now: int, data: SeedData)
    requires |s.jobs| == 0 && Seeded(s, t, now, data)
    ensures |t.categories| == |s.categories| + |data.categories|
    ensures |t.tags| == |s.tags| + |data.tags|
    ensures |t.companies| == |s.companies| + |data.companies|
    ensures |t.jobs| == |data.jobs|
    ensures |t.users| == |s.users| + 3
  {
  }

  /**
   * Of the three users a completed seed adds, only the employer has a
   * company, and it is the first seeded company.
   */
  lemma SeededUsers(s: Store, t: Store, now: int, data: SeedData)
    requires Seeded(s, t, now, data)
    ensures |data.companies| > 0 && |t.users| == |s.users| + 3 && t.users[..|s.users|] == s.users
    ensures var added := t.users[|s.users|..];
      && (forall u | u in added :: u.companyId.Some? <==> u.role == "Employer")
      && added[2].role == "Employer" && added[2].companyId == Some(t.companies[|s.companies|].id)
    ensures t.companies[|s.companies|] == data.companies[0].(id := NextId(s.companies, CompanyKey))
  {
    var rows := UserSeeds(t.companies[|s.companies|].id);
    var added := UsersFrom(rows, NextId(s.users, UserKey));
    assert t.users[|s.users|..] == added;
    forall u | u in added ensures u.companyId.Some? <==> u.role == "Employer" {
      var k :| 0 <= k < 3 && added[k] == u;
      assert u == rows[k].(id := NextId(s.users, UserKey) + k);
    }
  }

  /**
   * A completed seed builds each job from its seed, in order; a seed with a
   * negative `daysAgo` gives a job posted before the seeding instant.
   */
  lemma SeededJobs(s: Store, t: Store, now: int, data: SeedData)
    requires |s.jobs| == 0 && Seeded(s, t, now, data)
    ensures |t.jobs| == |data.jobs|
    ensures forall k :: 0 <= k < |data.jobs| ==>
      && data.jobs[k].company < |data.companies|
      && t.jobs[k].title == data.jobs[k].title
      && t.jobs[k].postedDate == now + data.jobs[k].daysAgo * Day
      && t.jobs[k].companyId == t.companies[|s.companies| + data.jobs[k].company].id
      && (data.jobs[k].daysAgo < 0 ==> t.jobs[k].postedDate < now)
  {
    forall k | 0 <= k < |data.jobs| ensures data.jobs[k].daysAgo < 0 ==> t.jobs[k].postedDate < now {
      assert JobOf(t.jobs[k], data.jobs[k], t.companies[|s.companies| + data.jobs[k].company].id, now);
      if data.jobs[k].daysAgo < 0 {
        assert data.jobs[k].daysAgo * Day <= -Day;
      }
    }
  }

  /** Every job the data refers to has a negative `daysAgo` and one of `count` companies. */
  predicate PastAndKnown(specs: seq<JobSeed>, count: nat) {
    forall k :: 0 <= k < |specs| ==> specs[k].daysAgo < 0 && specs[k].company < count
  }

  lemma DemoSizes(companyId: int)
    ensures |CategorySeeds| == 10 && |TagSeeds| == 36 && |UserSeeds(companyId)| == 3
  {
  }

  lemma DemoCompanies()
    ensures |CompanySeeds| == 12
  {
  }

  /** The eight category lookups of the seed all succeed on the seeded categories. */
  lemma DemoCategoriesFound(firstId: int)
    ensures CategoriesFound(CategoriesFrom(CategorySeeds, firstId))
  {
    var cats := CategoriesFrom(CategorySeeds, firstId);
    forall v: CategoryVar ensures Any(cats, Named(VarName(v))) {
      var i := match v
        case Tech => 0
        case Design => 1
        case Marketing => 2
        case Sales => 3
        case Finance => 4
        case Healthcare => 5
        case Education => 6
        case HumanResources => 9;
      assert Named(VarName(v))(cats[i]);
    }
  }

  lemma TechnologyJobsPastAndKnown()
    ensures PastAndKnown(TechnologyJobs, 12)
  {
  }

  lemma DesignMarketingJobsPastAndKnown()
    ensures PastAndKnown(DesignMarketingJobs, 12)
  {
  }

  lemma ServiceJobsPastAndKnown()
    ensures PastAndKnown(ServiceJobs, 12)
  {
  }

  lemma MoreTechJobsPastAndKnown()
    ensures PastAndKnown(MoreTechJobs, 12)
  {
  }

  // ------------------------------------------------------------ the method

  /**
   * `SeedAsync` against the unit of work: the guard, then the five saves in
   * order; an exception ends the run with what was committed so far.
   */
  method SeedAsync(uow: UnitOfWork, now: int, data: SeedData) returns (r: Result<(), Exception>)
    modifies uow
    ensures r == Seed(old(uow.store), now, data).result
    ensures uow.store == Seed(old(uow.store), now, data).store
  {
    if |uow.store.jobs| > 0 {
      return Ok(());
    }
    var cats := CategoriesFrom(data.categories, NextId(uow.store.categories, CategoryKey));
    var saved := uow.SaveChanges(uow.store.(categories := uow.store.categories + cats));
    if saved.Err? {
      return Err(saved.error);
    }
    var tags := TagsFrom(data.tags, NextId(uow.store.tags, TagKey));
    saved := uow.SaveChanges(uow.store.(tags := uow.store.tags + tags));
    if saved.Err? {
      return Err(saved.error);
    }
    var companies := CompaniesFrom(data.companies, NextId(uow.store.companies, CompanyKey));
    saved := uow.SaveChanges(uow.store.(companies := uow.store.companies + companies));
    if saved.Err? {
      return Err(saved.error);
    }
    if !CategoriesFound(cats) {
      return Err(NoMatch);
    }
    var dict := ToDictionary(tags);
    if dict.None? {
      return Err(DuplicateKey);
    }
    var built := BuildJobs(data.jobs, companies, cats, dict.value, now);
    if built.Err? {
      return Err(built.error);
    }
    if !LinksDistinct(built.value) {
      return Err(TrackingConflict);
    }
    saved := uow.SaveChanges(SaveJobs(uow.store, built.value));
    if saved.Err? {
      return Err(saved.error);
    }
    if |companies| == 0 {
      return Err(IndexOutOfRange);
    }
    var users := UsersFrom(UserSeeds(companies[0].id), NextId(uow.store.users, UserKey));
    saved := uow.SaveChanges(uow.store.(users := uow.store.users + users));
    if saved.Err? {
      return Err(saved.error);
    }
    r := Ok(());
  }
}
