/** The badge icons table (frontend/components/SkillBadge.tsx:7-99): an object
    literal from lower-case skill names to icons. */
module SkillIconTable {
  import opened Wrappers
  import opened Translations

  // ---------------------------------------------------------------------------
  // The icon table (lines 7-99), in the groups its comments mark
  // ---------------------------------------------------------------------------

  /** `skillIcons`, an object literal of strings. */
  function SkillIcons(): Entries<string> {
    AllGroups(End)
  }

  /** Frontend (lines 8-28), followed by `rest`. */
  function FrontendIcons(rest: Entries<string>): Entries<string> {
    Entry("react", Leaf("⚛️"),
    Entry("reactjs", Leaf("⚛️"),
    Entry("vue", Leaf("💚"),
    Entry("vuejs", Leaf("💚"),
    Entry("angular", Leaf("🅰️"),
    Entry("javascript", Leaf("🟨"),
    Entry("js", Leaf("🟨"),
    Entry("typescript", Leaf("🔷"),
    Entry("ts", Leaf("🔷"),
    Entry("html", Leaf("🌐"),
    Entry("html5", Leaf("🌐"),
    Entry("css", Leaf("🎨"),
    Entry("css3", Leaf("🎨"),
    Entry("tailwind", Leaf("🌊"),
    Entry("tailwindcss", Leaf("🌊"),
    Entry("bootstrap", Leaf("🅱️"),
    Entry("sass", Leaf("💗"),
    Entry("scss", Leaf("💗"),
    Entry("nextjs", Leaf("▲"),
    Entry("next.js", Leaf("▲"),
    rest))))))))))))))))))))
  }

  /** Backend (lines 30-43), followed by `rest`. */
  function BackendIcons(rest: Entries<string>): Entries<string> {
    Entry("python", Leaf("🐍"),
    Entry("java", Leaf("☕"),
    Entry("nodejs", Leaf("🟢"),
    Entry("node.js", Leaf("🟢"),
    Entry("node", Leaf("🟢"),
    Entry("php", Leaf("🐘"),
    Entry("ruby", Leaf("💎"),
    Entry("go", Leaf("🔵"),
    Entry("golang", Leaf("🔵"),
    Entry("c#", Leaf("🔷"),
    Entry("csharp", Leaf("🔷"),
    Entry("c++", Leaf("⚙️"),
    Entry("rust", Leaf("🦀"),
    rest)))))))))))))
  }

  /** Frameworks (lines 45-53), followed by `rest`. */
  function FrameworkIcons(rest: Entries<string>): Entries<string> {
    Entry("django", Leaf("🎸"),
    Entry("flask", Leaf("🧪"),
    Entry("fastapi", Leaf("⚡"),
    Entry("express", Leaf("🚂"),
    Entry("expressjs", Leaf("🚂"),
    Entry("spring", Leaf("🍃"),
    Entry("laravel", Leaf("🔺"),
    Entry("rails", Leaf("🛤️"),
    rest))))))))
  }

  /** Database (lines 55-63), followed by `rest`. */
  function DatabaseIcons(rest: Entries<string>): Entries<string> {
    Entry("sql", Leaf("🗄️"),
    Entry("mysql", Leaf("🐬"),
    Entry("postgresql", Leaf("🐘"),
    Entry("postgres", Leaf("🐘"),
    Entry("mongodb", Leaf("🍃"),
    Entry("mongo", Leaf("🍃"),
    Entry("redis", Leaf("🔴"),
    Entry("sqlite", Leaf("💾"),
    rest))))))))
  }

  /** DevOps & Tools (lines 65-77), followed by `rest`. */
  function ToolIcons(rest: Entries<string>): Entries<string> {
    Entry("docker", Leaf("🐳"),
    Entry("kubernetes", Leaf("☸️"),
    Entry("k8s", Leaf("☸️"),
    Entry("git", Leaf("📦"),
    Entry("github", Leaf("🐙"),
    Entry("gitlab", Leaf("🦊"),
    Entry("aws", Leaf("☁️"),
    Entry("azure", Leaf("☁️"),
    Entry("gcp", Leaf("☁️"),
    Entry("linux", Leaf("🐧"),
    Entry("jenkins", Leaf("👨‍🔧"),
    Entry("ci/cd", Leaf("🔄"),
    rest))))))))))))
  }

  /** Mobile (lines 79-85), followed by `rest`. */
  function MobileIcons(rest: Entries<string>): Entries<string> {
    Entry("android", Leaf("🤖"),
    Entry("ios", Leaf("🍎"),
    Entry("flutter", Leaf("🦋"),
    Entry("react native", Leaf("📱"),
    Entry("swift", Leaf("🦅"),
    Entry("kotlin", Leaf("🟣"),
    rest))))))
  }

  /** Other (lines 87-98), followed by `rest`. */
  function OtherIcons(rest: Entries<string>): Entries<string> {
    Entry("api", Leaf("🔌"),
    Entry("rest", Leaf("🔌"),
    Entry("graphql", Leaf("📊"),
    Entry("testing", Leaf("🧪"),
    Entry("agile", Leaf("🔄"),
    Entry("scrum", Leaf("🏉"),
    Entry("figma", Leaf("🎨"),
    Entry("photoshop", Leaf("🖼️"),
    Entry("illustrator", Leaf("✏️"),
    Entry("ui/ux", Leaf("🎨"),
    Entry("design", Leaf("🎨"),
    rest)))))))))))
  }

  // ---------------------------------------------------------------------------
  // Every entry is a non-empty icon other than the default
  // ---------------------------------------------------------------------------

  /** The default icon, `'🔧'`. */
  const Wrench := "🔧"

  /** Every entry is a string leaf, non-empty and different from the default. */
  predicate IconsWellFormed(e: Entries<string>) {
    match e
    case End => true
    case Entry(_, v, rest) => v.Leaf? && v.leaf != "" && v.leaf != Wrench && IconsWellFormed(rest)
  }

  /** What a well-formed table yields when it finds a key. */
  lemma {:induction false} LookupWellFormed(e: Entries<string>, k: string)
    requires IconsWellFormed(e) && Lookup(e, k).Some?
    ensures Lookup(e, k).value.Leaf?
    ensures Lookup(e, k).value.leaf != "" && Lookup(e, k).value.leaf != Wrench
  {
    if e.key != k {
      LookupWellFormed(e.rest, k);
    }
  }

  lemma FrontendIconsWellFormed(rest: Entries<string>)
    requires IconsWellFormed(rest)
    ensures IconsWellFormed(FrontendIcons(rest))
  {
    var t19 := Entry("next.js", Leaf("▲"), rest);
    assert IconsWellFormed(t19);
    var t18 := Entry("nextjs", Leaf("▲"), t19);
    assert IconsWellFormed(t18);
    var t17 := Entry("scss", Leaf("💗"), t18);
    assert IconsWellFormed(t17);
    var t16 := Entry("sass", Leaf("💗"), t17);
    assert IconsWellFormed(t16);
    var t15 := Entry("bootstrap", Leaf("🅱️"), t16);
    assert IconsWellFormed(t15);
    var t14 := Entry("tailwindcss", Leaf("🌊"), t15);
    assert IconsWellFormed(t14);
    var t13 := Entry("tailwind", Leaf("🌊"), t14);
    assert IconsWellFormed(t13);
    var t12 := Entry("css3", Leaf("🎨"), t13);
    assert IconsWellFormed(t12);
    var t11 := Entry("css", Leaf("🎨"), t12);
    assert IconsWellFormed(t11);
    var t10 := Entry("html5", Leaf("🌐"), t11);
    assert IconsWellFormed(t10);
    var t9 := Entry("html", Leaf("🌐"), t10);
    assert IconsWellFormed(t9);
    var t8 := Entry("ts", Leaf("🔷"), t9);
    assert IconsWellFormed(t8);
    var t7 := Entry("typescript", Leaf("🔷"), t8);
    assert IconsWellFormed(t7);
    var t6 := Entry("js", Leaf("🟨"), t7);
    assert IconsWellFormed(t6);
    var t5 := Entry("javascript", Leaf("🟨"), t6);
    assert IconsWellFormed(t5);
    var t4 := Entry("angular", Leaf("🅰️"), t5);
    assert IconsWellFormed(t4);
    var t3 := Entry("vuejs", Leaf("💚"), t4);
    assert IconsWellFormed(t3);
    var t2 := Entry("vue", Leaf("💚"), t3);
    assert IconsWellFormed(t2);
    var t1 := Entry("reactjs", Leaf("⚛️"), t2);
    assert IconsWellFormed(t1);
    var t0 := Entry("react", Leaf("⚛️"), t1);
    assert IconsWellFormed(t0);
    assert FrontendIcons(rest) == t0;
  }

  lemma BackendIconsWellFormed(rest: Entries<string>)
    requires IconsWellFormed(rest)
    ensures IconsWellFormed(BackendIcons(rest))
  {
    var t12 := Entry("rust", Leaf("🦀"), rest);
    assert IconsWellFormed(t12);
    var t11 := Entry("c++", Leaf("⚙️"), t12);
    assert IconsWellFormed(t11);
    var t10 := Entry("csharp", Leaf("🔷"), t11);
    assert IconsWellFormed(t10);
    var t9 := Entry("c#", Leaf("🔷"), t10);
    assert IconsWellFormed(t9);
    var t8 := Entry("golang", Leaf("🔵"), t9);
    assert IconsWellFormed(t8);
    var t7 := Entry("go", Leaf("🔵"), t8);
    assert IconsWellFormed(t7);
    var t6 := Entry("ruby", Leaf("💎"), t7);
    assert IconsWellFormed(t6);
    var t5 := Entry("php", Leaf("🐘"), t6);
    assert IconsWellFormed(t5);
    var t4 := Entry("node", Leaf("🟢"), t5);
    assert IconsWellFormed(t4);
    var t3 := Entry("node.js", Leaf("🟢"), t4);
    assert IconsWellFormed(t3);
    var t2 := Entry("nodejs", Leaf("🟢"), t3);
    assert IconsWellFormed(t2);
    var t1 := Entry("java", Leaf("☕"), t2);
    assert IconsWellFormed(t1);
    var t0 := Entry("python", Leaf("🐍"), t1);
    assert IconsWellFormed(t0);
    assert BackendIcons(rest) == t0;
  }

  lemma FrameworkIconsWellFormed(rest: Entries<string>)
    requires IconsWellFormed(rest)
    ensures IconsWellFormed(FrameworkIcons(rest))
  {
    var t7 := Entry("rails", Leaf("🛤️"), rest);
    assert IconsWellFormed(t7);
    var t6 := Entry("laravel", Leaf("🔺"), t7);
    assert IconsWellFormed(t6);
    var t5 := Entry("spring", Leaf("🍃"), t6);
    assert IconsWellFormed(t5);
    var t4 := Entry("expressjs", Leaf("🚂"), t5);
    assert IconsWellFormed(t4);
    var t3 := Entry("express", Leaf("🚂"), t4);
    assert IconsWellFormed(t3);
    var t2 := Entry("fastapi", Leaf("⚡"), t3);
    assert IconsWellFormed(t2);
    var t1 := Entry("flask", Leaf("🧪"), t2);
    assert IconsWellFormed(t1);
    var t0 := Entry("django", Leaf("🎸"), t1);
    assert IconsWellFormed(t0);
    assert FrameworkIcons(rest) == t0;
  }

  lemma DatabaseIconsWellFormed(rest: Entries<string>)
    requires IconsWellFormed(rest)
    ensures IconsWellFormed(DatabaseIcons(rest))
  {
    var t7 := Entry("sqlite", Leaf("💾"), rest);
    assert IconsWellFormed(t7);
    var t6 := Entry("redis", Leaf("🔴"), t7);
    assert IconsWellFormed(t6);
    var t5 := Entry("mongo", Leaf("🍃"), t6);
    assert IconsWellFormed(t5);
    var t4 := Entry("mongodb", Leaf("🍃"), t5);
    assert IconsWellFormed(t4);
    var t3 := Entry("postgres", Leaf("🐘"), t4);
    assert IconsWellFormed(t3);
    var t2 := Entry("postgresql", Leaf("🐘"), t3);
    assert IconsWellFormed(t2);
    var t1 := Entry("mysql", Leaf("🐬"), t2);
    assert IconsWellFormed(t1);
    var t0 := Entry("sql", Leaf("🗄️"), t1);
    assert IconsWellFormed(t0);
    assert DatabaseIcons(rest) == t0;
  }

  lemma ToolIconsWellFormed(rest: Entries<string>)
    requires IconsWellFormed(rest)
    ensures IconsWellFormed(ToolIcons(rest))
  {
    var t11 := Entry("ci/cd", Leaf("🔄"), rest);
    assert IconsWellFormed(t11);
    var t10 := Entry("jenkins", Leaf("👨‍🔧"), t11);
    assert IconsWellFormed(t10);
    var t9 := Entry("linux", Leaf("🐧"), t10);
    assert IconsWellFormed(t9);
    var t8 := Entry("gcp", Leaf("☁️"), t9);
    assert IconsWellFormed(t8);
    var t7 := Entry("azure", Leaf("☁️"), t8);
    assert IconsWellFormed(t7);
    var t6 := Entry("aws", Leaf("☁️"), t7);
    assert IconsWellFormed(t6);
    var t5 := Entry("gitlab", Leaf("🦊"), t6);
    assert IconsWellFormed(t5);
    var t4 := Entry("github", Leaf("🐙"), t5);
    assert IconsWellFormed(t4);
    var t3 := Entry("git", Leaf("📦"), t4);
    assert IconsWellFormed(t3);
    var t2 := Entry("k8s", Leaf("☸️"), t3);
    assert IconsWellFormed(t2);
    var t1 := Entry("kubernetes", Leaf("☸️"), t2);
    assert IconsWellFormed(t1);
    var t0 := Entry("docker", Leaf("🐳"), t1);
    assert IconsWellFormed(t0);
    assert ToolIcons(rest) == t0;
  }

  lemma MobileIconsWellFormed(rest: Entries<string>)
    requires IconsWellFormed(rest)
    ensures IconsWellFormed(MobileIcons(rest))
  {
    var t5 := Entry("kotlin", Leaf("🟣"), rest);
    assert IconsWellFormed(t5);
    var t4 := Entry("swift", Leaf("🦅"), t5);
    assert IconsWellFormed(t4);
    var t3 := Entry("react native", Leaf("📱"), t4);
    assert IconsWellFormed(t3);
    var t2 := Entry("flutter", Leaf("🦋"), t3);
    assert IconsWellFormed(t2);
    var t1 := Entry("ios", Leaf("🍎"), t2);
    assert IconsWellFormed(t1);
    var t0 := Entry("android", Leaf("🤖"), t1);
    assert IconsWellFormed(t0);
    assert MobileIcons(rest) == t0;
  }

  lemma OtherIconsWellFormed(rest: Entries<string>)
    requires IconsWellFormed(rest)
    ensures IconsWellFormed(OtherIcons(rest))
  {
    var t10 := Entry("design", Leaf("🎨"), rest);
    assert IconsWellFormed(t10);
    var t9 := Entry("ui/ux", Leaf("🎨"), t10);
    assert IconsWellFormed(t9);
    var t8 := Entry("illustrator", Leaf("✏️"), t9);
    assert IconsWellFormed(t8);
    var t7 := Entry("photoshop", Leaf("🖼️"), t8);
    assert IconsWellFormed(t7);
    var t6 := Entry("figma", Leaf("🎨"), t7);
    assert IconsWellFormed(t6);
    var t5 := Entry("scrum", Leaf("🏉"), t6);
    assert IconsWellFormed(t5);
    var t4 := Entry("agile", Leaf("🔄"), t5);
    assert IconsWellFormed(t4);
    var t3 := Entry("testing", Leaf("🧪"), t4);
    assert IconsWellFormed(t3);
    var t2 := Entry("graphql", Leaf("📊"), t3);
    assert IconsWellFormed(t2);
    var t1 := Entry("rest", Leaf("🔌"), t2);
    assert IconsWellFormed(t1);
    var t0 := Entry("api", Leaf("🔌"), t1);
    assert IconsWellFormed(t0);
    assert OtherIcons(rest) == t0;
  }

  /** The seven groups in order, followed by `rest`. */
  function AllGroups(rest: Entries<string>): Entries<string> {
    FrontendIcons(BackendIcons(FrameworkIcons(DatabaseIcons(ToolIcons(MobileIcons(OtherIcons(rest)))))))
  }

  lemma AllGroupsWellFormed(rest: Entries<string>)
    requires IconsWellFormed(rest)
    ensures IconsWellFormed(AllGroups(rest))
  {
    OtherIconsWellFormed(rest);
    var t6 := OtherIcons(rest);
    MobileIconsWellFormed(t6);
    var t5 := MobileIcons(t6);
    ToolIconsWellFormed(t5);
    var t4 := ToolIcons(t5);
    DatabaseIconsWellFormed(t4);
    var t3 := DatabaseIcons(t4);
    FrameworkIconsWellFormed(t3);
    var t2 := FrameworkIcons(t3);
    BackendIconsWellFormed(t2);
    var t1 := BackendIcons(t2);
    FrontendIconsWellFormed(t1);
  }

  lemma SkillIconsWellFormed()
    ensures IconsWellFormed(SkillIcons())
  {
    AllGroupsWellFormed(End);
  }

  // ---------------------------------------------------------------------------
  // Looking past a group
  // ---------------------------------------------------------------------------

  /** A key not in FrontendIcons is looked up in `rest`. */
  lemma FrontendIconsSkip(rest: Entries<string>, k: string)
    requires k != "react" && k != "reactjs" && k != "vue" && k != "vuejs" && k != "angular" &&
             k != "javascript" && k != "js" && k != "typescript" && k != "ts" && k != "html" &&
             k != "html5" && k != "css" && k != "css3" && k != "tailwind" && k != "tailwindcss" &&
             k != "bootstrap" && k != "sass" && k != "scss" && k != "nextjs" && k != "next.js"
    ensures Lookup(FrontendIcons(rest), k) == Lookup(rest, k)
  {
    var t19 := Entry("next.js", Leaf("▲"), rest);
    assert Lookup(t19, k) == Lookup(rest, k);
    var t18 := Entry("nextjs", Leaf("▲"), t19);
    assert Lookup(t18, k) == Lookup(rest, k);
    var t17 := Entry("scss", Leaf("💗"), t18);
    assert Lookup(t17, k) == Lookup(rest, k);
    var t16 := Entry("sass", Leaf("💗"), t17);
    assert Lookup(t16, k) == Lookup(rest, k);
    var t15 := Entry("bootstrap", Leaf("🅱️"), t16);
    assert Lookup(t15, k) == Lookup(rest, k);
    var t14 := Entry("tailwindcss", Leaf("🌊"), t15);
    assert Lookup(t14, k) == Lookup(rest, k);
    var t13 := Entry("tailwind", Leaf("🌊"), t14);
    assert Lookup(t13, k) == Lookup(rest, k);
    var t12 := Entry("css3", Leaf("🎨"), t13);
    assert Lookup(t12, k) == Lookup(rest, k);
    var t11 := Entry("css", Leaf("🎨"), t12);
    assert Lookup(t11, k) == Lookup(rest, k);
    var t10 := Entry("html5", Leaf("🌐"), t11);
    assert Lookup(t10, k) == Lookup(rest, k);
    var t9 := Entry("html", Leaf("🌐"), t10);
    assert Lookup(t9, k) == Lookup(rest, k);
    var t8 := Entry("ts", Leaf("🔷"), t9);
    assert Lookup(t8, k) == Lookup(rest, k);
    var t7 := Entry("typescript", Leaf("🔷"), t8);
    assert Lookup(t7, k) == Lookup(rest, k);
    var t6 := Entry("js", Leaf("🟨"), t7);
    assert Lookup(t6, k) == Lookup(rest, k);
    var t5 := Entry("javascript", Leaf("🟨"), t6);
    assert Lookup(t5, k) == Lookup(rest, k);
    var t4 := Entry("angular", Leaf("🅰️"), t5);
    assert Lookup(t4, k) == Lookup(rest, k);
    var t3 := Entry("vuejs", Leaf("💚"), t4);
    assert Lookup(t3, k) == Lookup(rest, k);
    var t2 := Entry("vue", Leaf("💚"), t3);
    assert Lookup(t2, k) == Lookup(rest, k);
    var t1 := Entry("reactjs", Leaf("⚛️"), t2);
    assert Lookup(t1, k) == Lookup(rest, k);
    var t0 := Entry("react", Leaf("⚛️"), t1);
    assert Lookup(t0, k) == Lookup(rest, k);
    assert FrontendIcons(rest) == t0;
  }

  /** A key not in BackendIcons is looked up in `rest`. */
  lemma BackendIconsSkip(rest: Entries<string>, k: string)
    requires k != "python" && k != "java" && k != "nodejs" && k != "node.js" && k != "node" &&
             k != "php" && k != "ruby" && k != "go" && k != "golang" && k != "c#" &&
             k != "csharp" && k != "c++" && k != "rust"
    ensures Lookup(BackendIcons(rest), k) == Lookup(rest, k)
  {
    var t12 := Entry("rust", Leaf("🦀"), rest);
    assert Lookup(t12, k) == Lookup(rest, k);
    var t11 := Entry("c++", Leaf("⚙️"), t12);
    assert Lookup(t11, k) == Lookup(rest, k);
    var t10 := Entry("csharp", Leaf("🔷"), t11);
    assert Lookup(t10, k) == Lookup(rest, k);
    var t9 := Entry("c#", Leaf("🔷"), t10);
    assert Lookup(t9, k) == Lookup(rest, k);
    var t8 := Entry("golang", Leaf("🔵"), t9);
    assert Lookup(t8, k) == Lookup(rest, k);
    var t7 := Entry("go", Leaf("🔵"), t8);
    assert Lookup(t7, k) == Lookup(rest, k);
    var t6 := Entry("ruby", Leaf("💎"), t7);
    assert Lookup(t6, k) == Lookup(rest, k);
    var t5 := Entry("php", Leaf("🐘"), t6);
    assert Lookup(t5, k) == Lookup(rest, k);
    var t4 := Entry("node", Leaf("🟢"), t5);
    assert Lookup(t4, k) == Lookup(rest, k);
    var t3 := Entry("node.js", Leaf("🟢"), t4);
    assert Lookup(t3, k) == Lookup(rest, k);
    var t2 := Entry("nodejs", Leaf("🟢"), t3);
    assert Lookup(t2, k) == Lookup(rest, k);
    var t1 := Entry("java", Leaf("☕"), t2);
    assert Lookup(t1, k) == Lookup(rest, k);
    var t0 := Entry("python", Leaf("🐍"), t1);
    assert Lookup(t0, k) == Lookup(rest, k);
    assert BackendIcons(rest) == t0;
  }

  /** A key not in FrameworkIcons is looked up in `rest`. */
  lemma FrameworkIconsSkip(rest: Entries<string>, k: string)
    requires k != "django" && k != "flask" && k != "fastapi" && k != "express" &&
             k != "expressjs" && k != "spring" && k != "laravel" && k != "rails"
    ensures Lookup(FrameworkIcons(rest), k) == Lookup(rest, k)
  {
    var t7 := Entry("rails", Leaf("🛤️"), rest);
    assert Lookup(t7, k) == Lookup(rest, k);
    var t6 := Entry("laravel", Leaf("🔺"), t7);
    assert Lookup(t6, k) == Lookup(rest, k);
    var t5 := Entry("spring", Leaf("🍃"), t6);
    assert Lookup(t5, k) == Lookup(rest, k);
    var t4 := Entry("expressjs", Leaf("🚂"), t5);
    assert Lookup(t4, k) == Lookup(rest, k);
    var t3 := Entry("express", Leaf("🚂"), t4);
    assert Lookup(t3, k) == Lookup(rest, k);
    var t2 := Entry("fastapi", Leaf("⚡"), t3);
    assert Lookup(t2, k) == Lookup(rest, k);
    var t1 := Entry("flask", Leaf("🧪"), t2);
    assert Lookup(t1, k) == Lookup(rest, k);
    var t0 := Entry("django", Leaf("🎸"), t1);
    assert Lookup(t0, k) == Lookup(rest, k);
    assert FrameworkIcons(rest) == t0;
  }

  /** A key not in DatabaseIcons is looked up in `rest`. */
  lemma DatabaseIconsSkip(rest: Entries<string>, k: string)
    requires k != "sql" && k != "mysql" && k != "postgresql" && k != "postgres" && k != "mongodb" &&
             k != "mongo" && k != "redis" && k != "sqlite"
    ensures Lookup(DatabaseIcons(rest), k) == Lookup(rest, k)
  {
    var t7 := Entry("sqlite", Leaf("💾"), rest);
    assert Lookup(t7, k) == Lookup(rest, k);
    var t6 := Entry("redis", Leaf("🔴"), t7);
    assert Lookup(t6, k) == Lookup(rest, k);
    var t5 := Entry("mongo", Leaf("🍃"), t6);
    assert Lookup(t5, k) == Lookup(rest, k);
    var t4 := Entry("mongodb", Leaf("🍃"), t5);
    assert Lookup(t4, k) == Lookup(rest, k);
    var t3 := Entry("postgres", Leaf("🐘"), t4);
    assert Lookup(t3, k) == Lookup(rest, k);
    var t2 := Entry("postgresql", Leaf("🐘"), t3);
    assert Lookup(t2, k) == Lookup(rest, k);
    var t1 := Entry("mysql", Leaf("🐬"), t2);
    assert Lookup(t1, k) == Lookup(rest, k);
    var t0 := Entry("sql", Leaf("🗄️"), t1);
    assert Lookup(t0, k) == Lookup(rest, k);
    assert DatabaseIcons(rest) == t0;
  }

  /** A key not in ToolIcons is looked up in `rest`. */
  lemma ToolIconsSkip(rest: Entries<string>, k: string)
    requires k != "docker" && k != "kubernetes" && k != "k8s" && k != "git" && k != "github" &&
             k != "gitlab" && k != "aws" && k != "azure" && k != "gcp" && k != "linux" &&
             k != "jenkins" && k != "ci/cd"
    ensures Lookup(ToolIcons(rest), k) == Lookup(rest, k)
  {
    var t11 := Entry("ci/cd", Leaf("🔄"), rest);
    assert Lookup(t11, k) == Lookup(rest, k);
    var t10 := Entry("jenkins", Leaf("👨‍🔧"), t11);
    assert Lookup(t10, k) == Lookup(rest, k);
    var t9 := Entry("linux", Leaf("🐧"), t10);
    assert Lookup(t9, k) == Lookup(rest, k);
    var t8 := Entry("gcp", Leaf("☁️"), t9);
    assert Lookup(t8, k) == Lookup(rest, k);
    var t7 := Entry("azure", Leaf("☁️"), t8);
    assert Lookup(t7, k) == Lookup(rest, k);
    var t6 := Entry("aws", Leaf("☁️"), t7);
    assert Lookup(t6, k) == Lookup(rest, k);
    var t5 := Entry("gitlab", Leaf("🦊"), t6);
    assert Lookup(t5, k) == Lookup(rest, k);
    var t4 := Entry("github", Leaf("🐙"), t5);
    assert Lookup(t4, k) == Lookup(rest, k);
    var t3 := Entry("git", Leaf("📦"), t4);
    assert Lookup(t3, k) == Lookup(rest, k);
    var t2 := Entry("k8s", Leaf("☸️"), t3);
    assert Lookup(t2, k) == Lookup(rest, k);
    var t1 := Entry("kubernetes", Leaf("☸️"), t2);
    assert Lookup(t1, k) == Lookup(rest, k);
    var t0 := Entry("docker", Leaf("🐳"), t1);
    assert Lookup(t0, k) == Lookup(rest, k);
    assert ToolIcons(rest) == t0;
  }

  /** A key not in MobileIcons is looked up in `rest`. */
  lemma MobileIconsSkip(rest: Entries<string>, k: string)
    requires k != "android" && k != "ios" && k != "flutter" && k != "react native" &&
             k != "swift" && k != "kotlin"
    ensures Lookup(MobileIcons(rest), k) == Lookup(rest, k)
  {
    var t5 := Entry("kotlin", Leaf("🟣"), rest);
    assert Lookup(t5, k) == Lookup(rest, k);
    var t4 := Entry("swift", Leaf("🦅"), t5);
    assert Lookup(t4, k) == Lookup(rest, k);
    var t3 := Entry("react native", Leaf("📱"), t4);
    assert Lookup(t3, k) == Lookup(rest, k);
    var t2 := Entry("flutter", Leaf("🦋"), t3);
    assert Lookup(t2, k) == Lookup(rest, k);
    var t1 := Entry("ios", Leaf("🍎"), t2);
    assert Lookup(t1, k) == Lookup(rest, k);
    var t0 := Entry("android", Leaf("🤖"), t1);
    assert Lookup(t0, k) == Lookup(rest, k);
    assert MobileIcons(rest) == t0;
  }

  /** A key not in OtherIcons is looked up in `rest`. */
  lemma OtherIconsSkip(rest: Entries<string>, k: string)
    requires k != "api" && k != "rest" && k != "graphql" && k != "testing" && k != "agile" &&
             k != "scrum" && k != "figma" && k != "photoshop" && k != "illustrator" &&
             k != "ui/ux" && k != "design"
    ensures Lookup(OtherIcons(rest), k) == Lookup(rest, k)
  {
    var t10 := Entry("design", Leaf("🎨"), rest);
    assert Lookup(t10, k) == Lookup(rest, k);
    var t9 := Entry("ui/ux", Leaf("🎨"), t10);
    assert Lookup(t9, k) == Lookup(rest, k);
    var t8 := Entry("illustrator", Leaf("✏️"), t9);
    assert Lookup(t8, k) == Lookup(rest, k);
    var t7 := Entry("photoshop", Leaf("🖼️"), t8);
    assert Lookup(t7, k) == Lookup(rest, k);
    var t6 := Entry("figma", Leaf("🎨"), t7);
    assert Lookup(t6, k) == Lookup(rest, k);
    var t5 := Entry("scrum", Leaf("🏉"), t6);
    assert Lookup(t5, k) == Lookup(rest, k);
    var t4 := Entry("agile", Leaf("🔄"), t5);
    assert Lookup(t4, k) == Lookup(rest, k);
    var t3 := Entry("testing", Leaf("🧪"), t4);
    assert Lookup(t3, k) == Lookup(rest, k);
    var t2 := Entry("graphql", Leaf("📊"), t3);
    assert Lookup(t2, k) == Lookup(rest, k);
    var t1 := Entry("rest", Leaf("🔌"), t2);
    assert Lookup(t1, k) == Lookup(rest, k);
    var t0 := Entry("api", Leaf("🔌"), t1);
    assert Lookup(t0, k) == Lookup(rest, k);
    assert OtherIcons(rest) == t0;
  }

  // ---------------------------------------------------------------------------
  // Two lookups
  // ---------------------------------------------------------------------------

  /** `'react'` is the first key. */
  lemma ReactInTable()
    ensures Lookup(SkillIcons(), "react") == Some(Leaf("⚛️"))
  {
  }

  /** No group has the key `'cobol'`. */
  lemma CobolNotInTable()
    ensures Lookup(SkillIcons(), "cobol") == None
  {
    CobolInNoGroup(End);
  }

  /** `'cobol'` is looked up past every group. */
  lemma CobolInNoGroup(rest: Entries<string>)
    ensures Lookup(AllGroups(rest), "cobol") == Lookup(rest, "cobol")
  {
    var t3 := DatabaseIcons(ToolIcons(MobileIcons(OtherIcons(rest))));
    CobolInLaterGroups(rest);
    CobolInEarlierGroups(t3);
  }

  lemma CobolInEarlierGroups(rest: Entries<string>)
    ensures Lookup(FrontendIcons(BackendIcons(FrameworkIcons(rest))), "cobol") == Lookup(rest, "cobol")
  {
    FrameworkIconsSkip(rest, "cobol");
    var t2 := FrameworkIcons(rest);
    BackendIconsSkip(t2, "cobol");
    var t1 := BackendIcons(t2);
    FrontendIconsSkip(t1, "cobol");
  }

  lemma CobolInLaterGroups(rest: Entries<string>)
    ensures Lookup(DatabaseIcons(ToolIcons(MobileIcons(OtherIcons(rest)))), "cobol") == Lookup(rest, "cobol")
  {
    OtherIconsSkip(rest, "cobol");
    var t6 := OtherIcons(rest);
    MobileIconsSkip(t6, "cobol");
    var t5 := MobileIcons(t6);
    ToolIconsSkip(t5, "cobol");
    var t4 := ToolIcons(t5);
    DatabaseIconsSkip(t4, "cobol");
  }


}
