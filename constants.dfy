/** The static data of constants.ts: the role library and the skill
    categories offered by the assessment form (icons and the optional
    detail fields of the first two roles are presentation only). */
module Constants {
  import opened Types

  /** `ALL_ROLES`. */
  const AllRoles: seq<CareerRole> := [
    CareerRole("da", "Data Analyst", "Data",
      "Transform data into insights to help organizations make better decisions.",
      ["SQL", "Python", "Tableau", "Excel"], "Entry Level"),
    CareerRole("wd", "Web Developer", "Web",
      "Build and maintain websites using modern frontend and backend frameworks.",
      ["HTML", "CSS", "JavaScript", "React"], "Entry Level"),
    CareerRole("cyber", "Cybersecurity Analyst", "Security",
      "Protect networks and data from cyber threats and unauthorized access.",
      ["Networking", "Linux", "Security Tools", "Encryption"], "Entry Level"),
    CareerRole("cloud", "Cloud Engineer", "Cloud",
      "Design and manage scalable infrastructure on cloud platforms like AWS and Azure.",
      ["AWS", "Docker", "Kubernetes", "Linux"], "Mid Level"),
    CareerRole("devops", "DevOps Engineer", "Cloud",
      "Bridge the gap between development and operations for faster software delivery.",
      ["CI/CD", "Jenkins", "Terraform", "Git"], "Mid Level"),
    CareerRole("aiml", "AI/ML Engineer", "AI/ML",
      "Build intelligent systems and predictive models using machine learning algorithms.",
      ["Python", "TensorFlow", "PyTorch", "Math"], "Mid Level"),
    CareerRole("uiux", "UI/UX Designer", "Design",
      "Create intuitive and visually appealing user interfaces for digital products.",
      ["Figma", "User Research", "Prototyping", "Adobe XD"], "Entry Level")
  ]

  /** One group of skills the assessment form lets the user rate. */
  datatype SkillCategory = SkillCategory(category: string, skills: seq<string>)

  /** `SKILL_CATEGORIES`. */
  const SkillCategories: seq<SkillCategory> := [
    SkillCategory("Programming", ["Python", "JavaScript", "Java", "C++", "SQL", "C", "Go"]),
    SkillCategory("Web Technologies", ["HTML", "CSS", "React", "Node.js", "TypeScript", "Next.js", "PHP"]),
    SkillCategory("Data & Analytics", [
      "Excel", "Tableau", "Power BI", "Statistics", "R", "Big Data", "Pandas",
      "Matplotlib", "Seaborn", "Snowflake", "Databricks", "Apache Spark",
      "ETL Pipelines", "Data Visualization", "NoSQL", "Data Warehousing"]),
    SkillCategory("Cloud & DevOps", ["AWS", "Azure", "Docker", "Kubernetes", "Git", "Terraform", "GCP"]),
    SkillCategory("Security", ["Network Security", "Linux", "Penetration Testing", "SIEM Tools", "Firewalls", "Ethical Hacking"]),
    SkillCategory("AI/ML", [
      "Machine Learning", "Deep Learning", "TensorFlow", "PyTorch", "NLP",
      "Computer Vision", "LLMs", "Generative AI", "Prompt Engineering",
      "MLOps", "Scikit-Learn", "Keras", "Reinforcement Learning",
      "Vector Databases", "LangChain", "XGBoost"]),
    SkillCategory("Embedded & IoT", ["Arduino", "Raspberry Pi", "Microcontrollers", "MQTT", "Circuit Design", "RTOS", "Robotics"]),
    SkillCategory("Business & Design", ["Figma", "Product Management", "Agile/Scrum", "Marketing", "User Research"])
  ]
}
