/** The fallback engine's table of career paths (services/gemini.ts). */
module Catalog {

  /** A candidate role: its keyword signature, interest tags, description and
      the baseline skill gaps used when the profile gives no signal. */
  datatype CareerPath = CareerPath(
    role: string,
    keywords: seq<string>,
    interests: seq<string>,
    description: string,
    missing: seq<string>)

  const CareerPaths: seq<CareerPath> := [
    CareerPath("Data Scientist",
      ["Python", "Data Analysis", "Statistics", "SQL", "Machine Learning", "Deep Learning", "Pandas", "NumPy"],
      ["Data Analysis", "AI/ML", "Statistics"],
      "Analyze complex data to help organizations make better decisions.",
      ["Big Data Tools (Spark)", "Cloud Data Warehousing"]),
    CareerPath("Frontend Developer",
      ["React", "JavaScript", "HTML", "CSS", "TypeScript", "UI/UX Design", "Figma", "Redux"],
      ["Web Development", "UI/UX Design", "Mobile Development"],
      "Build interactive and responsive user interfaces for modern web applications.",
      ["Webpack/Vite Config", "Accessibility Standards (WCAG)"]),
    CareerPath("Backend Engineer",
      ["Node.js", "Python", "Java", "SQL", "NoSQL", "API", "Database", "Go", "Docker"],
      ["Web Development", "Cloud Computing", "System Design"],
      "Design and implement scalable server-side logic and database architecture.",
      ["Microservices Patterns", "Message Queues (Kafka/RabbitMQ)"]),
    CareerPath("Full Stack Developer",
      ["React", "Node.js", "JavaScript", "SQL", "Mongo", "Express", "Next.js"],
      ["Web Development", "Startup", "Product Development"],
      "Work across the entire stack from database to user interface.",
      ["CI/CD Pipelines", "Advanced Security Practices"]),
    CareerPath("DevOps Engineer",
      ["AWS", "Docker", "Kubernetes", "Linux", "CI/CD", "Terraform", "Cloud Computing", "Bash"],
      ["Cloud Computing", "DevOps", "Cybersecurity"],
      "Bridge the gap between development and operations with automation.",
      ["Infrastructure as Code", "Site Reliability Engineering"]),
    CareerPath("Cybersecurity Analyst",
      ["Network Security", "Linux", "Ethical Hacking", "Firewalls", "Python", "Cryptography"],
      ["Cybersecurity", "Network Security", "Privacy"],
      "Protect systems and networks from digital attacks.",
      ["Penetration Testing Tools", "Compliance Standards (ISO/SOC2)"]),
    CareerPath("AI/ML Engineer",
      ["Python", "TensorFlow", "PyTorch", "Machine Learning", "Deep Learning", "NLP", "Computer Vision"],
      ["AI/ML", "Robotics", "Data Science"],
      "Build and deploy intelligent models and systems.",
      ["Model Deployment (MLOps)", "Edge AI Optimization"]),
    CareerPath("Cloud Architect",
      ["AWS", "Azure", "Cloud Computing", "System Design", "Networking", "Security"],
      ["Cloud Computing", "System Architecture"],
      "Design and manage complex cloud computing strategies.",
      ["Multi-Cloud Strategy", "Cost Optimization"]),
    CareerPath("Mobile App Developer",
      ["React Native", "Flutter", "iOS", "Android", "JavaScript", "Dart"],
      ["Mobile Development", "App Design"],
      "Create seamless mobile experiences for iOS and Android.",
      ["Native Module Bridging", "App Store Optimization"])
  ]

  /** What the recommendation templates read from a path: three keywords,
      one interest tag and a non-empty baseline gap list. */
  predicate WellFormed(p: CareerPath)
  {
    |p.keywords| >= 3 && |p.interests| >= 1 && |p.missing| >= 1
  }

  /** Every catalogue entry is well formed, and there are nine of them. */
  lemma CatalogWellFormed()
    ensures |CareerPaths| == 9
    ensures forall i :: 0 <= i < |CareerPaths| ==> WellFormed(CareerPaths[i])
  {
  }
}
