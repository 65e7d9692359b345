/**
  The static content catalogue: the record shapes of projects and skills and the
  concrete lists the site ships with. They are the inputs of the prompt serialiser
  and of the project-card rules.
 */
module Catalog {
  import opened Text

  /** The optional external links of a project; each link may be absent. */
  datatype Links = Links(live: Option<string>, github: Option<string>, video: Option<string>)

  datatype Project = Project(
    id: string,
    title: string,
    category: string,
    description: string,
    tech: seq<string>,
    image: string,
    links: Option<Links>)

  /** The closed set of skill categories. */
  datatype Category = Core | Web3 | Tools | WebDev | Backend

  /** The category as it is spelled in the data. */
  function CategoryName(c: Category): string {
    match c
    case Core => "Core"
    case Web3 => "Web3"
    case Tools => "Tools"
    case WebDev => "Web Dev"
    case Backend => "Backend"
  }

  /** A skill; `level` is a percentage and every catalogue level is a whole number. */
  datatype Skill = Skill(name: string, level: nat, category: Category, icon: string)

  const Projects: seq<Project> := [
    Project("p1", "SENTINEL PROTOCOL", "DeFi Security",
      "Autonomous smart contract auditing infrastructure utilizing AI-driven heuristics to detect re-entrancy attacks in real-time.",
      ["Solidity", "Rust", "TensorFlow", "React"],
      "/images/sentinel_protocol.png",
      Some(Links(Some("https://sentinellai.netlify.app/"), Some("https://github.com/Dakshx07/Sentinel-ML-Back4app"), None))),
    Project("p2", "MEDICHAIN VAULT", "Healthcare DAO",
      "Decentralized patient record management system ensuring zero-knowledge privacy for medical data exchange.",
      ["IPFS", "Next.js", "ZK-Snarks", "Ethereum"],
      "/images/medichain_vault.png",
      Some(Links(None, Some("https://github.com/ssid18/MediChain"), Some("https://youtu.be/IzPafU6Re-w")))),
    Project("p3", "AYUCHAIN", "Supply Chain",
      "Blockchain-based supply chain management system for Ayurvedic medicines ensuring authenticity and traceability.",
      ["Solidity", "React", "Ethereum", "Web3.js"],
      "/images/ayuchain.png",
      Some(Links(None, Some("https://github.com/lakshitsoni26/ayuuchain"), None)))
  ]

  const Skills: seq<Skill> := [
    Skill("HTML", 98, WebDev, "FileCode"),
    Skill("CSS", 95, WebDev, "Palette"),
    Skill("JavaScript", 98, WebDev, "FileJson"),
    Skill("React/Next.js", 98, WebDev, "Globe"),
    Skill("TypeScript", 95, WebDev, "Code2"),
    Skill("C", 80, Backend, "Terminal"),
    Skill("C++", 85, Backend, "Cpu"),
    Skill("Java", 88, Backend, "Coffee"),
    Skill("Solidity", 95, Web3, "Cpu"),
    Skill("Rust", 85, Web3, "Code2"),
    Skill("DSA", 90, Core, "Binary"),
    Skill("Machine Learning", 85, Core, "Brain"),
    Skill("Problem Solving", 95, Core, "Puzzle"),
    Skill("Time Management", 90, Core, "Clock"),
    Skill("Git", 95, Tools, "GitBranch"),
    Skill("GitHub", 95, Tools, "Github"),
    Skill("Docker", 85, Tools, "Container"),
    Skill("Supabase", 88, Tools, "Database")
  ]
}
