/** The pure part of the brand scaffolding script (scripts/new-brand.ts):
    the library-name rewrite, the generated Cargo.toml, tauri.conf.json,
    package.json and app.config.ts, and the command-line argument check.

    Template literals are modelled as their lines, each followed by a line
    break. The configuration objects are records. */
module NewBrand {
  import opened Common
  import opened JsonValue
  import opened Navigation
  import opened SplashSetup

  // ---------------------------------------------------------------------------
  // deriveLibName
  // ---------------------------------------------------------------------------

  /** `s.replace(/-/g, '_')`. */
  function ReplaceHyphens(s: string): (r: string)
    ensures |r| == |s|
    ensures forall i :: 0 <= i < |s| ==> r[i] == if s[i] == '-' then '_' else s[i]
    decreases |s|
  {
    if s == [] then []
    else [if s[0] == '-' then '_' else s[0]] + ReplaceHyphens(s[1..])
  }

  /** The crate's library name: every hyphen becomes an underscore, then
      `_lib` is appended. */
  function DeriveLibName(brandName: string): (r: string)
    ensures |r| == |brandName| + 4
    ensures forall i :: 0 <= i < |brandName| ==> r[i] == if brandName[i] == '-' then '_' else brandName[i]
    ensures r[|brandName|..] == "_lib"
    ensures '-' !in r
  {
    var r := ReplaceHyphens(brandName) + "_lib";
    assert forall i :: 0 <= i < |brandName| ==> r[i] != '-';
    assert forall i :: |brandName| <= i < |r| ==> r[i] == "_lib"[i - |brandName|];
    r
  }

  /** A name whose characters are given one by one is what `DeriveLibName` returns. */
  lemma DeriveLibNameIs(brandName: string, expected: string)
    requires |expected| == |brandName| + 4 && expected[|brandName|..] == "_lib"
    requires forall i :: 0 <= i < |brandName| ==> expected[i] == if brandName[i] == '-' then '_' else brandName[i]
    ensures DeriveLibName(brandName) == expected
  {
    var r := DeriveLibName(brandName);
    forall i | 0 <= i < |r|
      ensures r[i] == expected[i]
    {
      if i >= |brandName| {
        assert r[i] == r[|brandName|..][i - |brandName|];
        assert expected[i] == expected[|brandName|..][i - |brandName|];
      }
    }
  }

  lemma DeriveLibNameOneHyphen()
    ensures DeriveLibName("my-brand") == "my_brand_lib"
  {
    DeriveLibNameIs("my-brand", "my_brand_lib");
  }

  lemma DeriveLibNameNoHyphen()
    ensures DeriveLibName("simple") == "simple_lib"
  {
    DeriveLibNameIs("simple", "simple_lib");
  }

  lemma DeriveLibNameTwoHyphens()
    ensures DeriveLibName("my-cool-brand") == "my_cool_brand_lib"
  {
    DeriveLibNameIs("my-cool-brand", "my_cool_brand_lib");
  }

  /** The rewrite is the identity on names without hyphens, apart from the suffix. */
  lemma DeriveLibNameWithoutHyphens(brandName: string)
    requires '-' !in brandName
    ensures DeriveLibName(brandName) == brandName + "_lib"
  {
    var r := DeriveLibName(brandName);
    assert r[..|brandName|] == brandName;
    assert r == r[..|brandName|] + r[|brandName|..];
  }

  // ---------------------------------------------------------------------------
  // generateCargoToml
  // ---------------------------------------------------------------------------

  const PluginCrates: seq<string> := ["shell", "notification", "os", "fs", "store", "http", "deep-link",
    "stronghold", "biometric", "barcode-scanner", "geolocation", "mcp-bridge"]

  function PluginLine(plugin: string): string
  {
    "tauri-plugin-" + plugin + " = { workspace = true }"
  }

  function PackageNameLine(brandName: string): string
  {
    "name = \"" + brandName + "-app\""
  }

  function LibNameLine(libName: string): string
  {
    "name = \"" + libName + "\""
  }

  const TauriCoreLine: string := "tauri-core = { path = \"../../../packages/tauri-core\" }"

  function CargoTomlLines(brandName: string, libName: string): seq<string>
  {
    ["[package]",
     PackageNameLine(brandName),
     "version = \"1.0.0\"",
     "edition = \"2021\"",
     "",
     "[lib]",
     LibNameLine(libName),
     "crate-type = [\"staticlib\", \"cdylib\", \"rlib\"]",
     "",
     "[build-dependencies]",
     "tauri-build = { workspace = true }",
     "",
     "[dependencies]",
     TauriCoreLine,
     "tauri = { workspace = true }",
     "",
     "# Plugin crates must be direct dependencies for Tauri's capability resolver"]
    + seq(|PluginCrates|, i requires 0 <= i < |PluginCrates| => PluginLine(PluginCrates[i]))
  }

  function GenerateCargoToml(brandName: string, libName: string): string
  {
    JoinLines(CargoTomlLines(brandName, libName))
  }

  lemma PrefixIsSubstring(a: string, b: string)
    ensures IsSubstring(a, a + b)
  {
    SubstringOfConcat([], a, b);
    assert [] + a + b == a + b;
  }

  /** The manifest names the package `<brand>-app` and the library
      `<libName>`, depends on the shared crate by its relative path, and
      lists every plugin crate. */
  lemma CargoTomlContents(brandName: string, libName: string)
    ensures IsSubstring(PackageNameLine(brandName), GenerateCargoToml(brandName, libName))
    ensures IsSubstring(LibNameLine(libName), GenerateCargoToml(brandName, libName))
    ensures IsSubstring(TauriCoreLine, GenerateCargoToml(brandName, libName))
    ensures forall k :: 0 <= k < |PluginCrates| ==> IsSubstring("tauri-plugin-" + PluginCrates[k], GenerateCargoToml(brandName, libName))
  {
    var lines := CargoTomlLines(brandName, libName);
    LineInJoin(lines, 1);
    LineInJoin(lines, 6);
    LineInJoin(lines, 13);
    forall k | 0 <= k < |PluginCrates|
      ensures IsSubstring("tauri-plugin-" + PluginCrates[k], GenerateCargoToml(brandName, libName))
    {
      var name := "tauri-plugin-" + PluginCrates[k];
      assert lines[17 + k] == name + " = { workspace = true }";
      PrefixIsSubstring(name, " = { workspace = true }");
      LineInJoin(lines, 17 + k);
      SubstringTransitive(name, lines[17 + k], GenerateCargoToml(brandName, libName));
    }
  }

  // ---------------------------------------------------------------------------
  // generateTauriConf
  // ---------------------------------------------------------------------------

  /** A window entry; keys a window does not set are `None`. (`label` is a
      Dafny keyword, hence `windowLabel`.) */
  datatype WindowConf = WindowConf(
    windowLabel: string,
    title: string,
    url: Option<string>,
    width: int,
    height: int,
    minWidth: Option<int>,
    minHeight: Option<int>,
    resizable: bool,
    fullscreen: Option<bool>,
    visible: Option<bool>,
    decorations: Option<bool>,
    center: Option<bool>,
    transparent: Option<bool>)

  datatype BundleConf = BundleConf(
    active: bool,
    targets: string,
    icon: seq<string>,
    resources: seq<string>,
    category: string,
    shortDescription: string,
    longDescription: string)

  datatype BuildConf = BuildConf(beforeBuildCommand: string, frontendDist: string, beforeDevCommand: string, devUrl: string)

  /** `security.csp` is `null`, written as `None`. */
  datatype AppConf = AppConf(withGlobalTauri: bool, windows: seq<WindowConf>, csp: Option<string>)

  datatype TauriConf = TauriConf(
    bundle: BundleConf,
    build: BuildConf,
    productName: string,
    version: string,
    identifier: string,
    plugins: map<string, Json>,
    app: AppConf)

  function GenerateTauriConf(productName: string, identifier: string): TauriConf
  {
    TauriConf(
      BundleConf(true, "all",
        ["icons/32x32.png", "icons/128x128.png", "icons/128x128@2x.png", "icons/icon.icns", "icons/icon.ico"],
        [], "Medical", productName + " App", productName + " - Mobile application"),
      BuildConf("bun run generate", "../.output/public", "bun run dev", "http://localhost:3000"),
      productName,
      "1.0.0",
      identifier,
      map[],
      AppConf(true,
        [WindowConf("main", productName, None, 1366, 768, Some(375), Some(812), true, Some(false), Some(false), None, None, None),
         WindowConf("splashscreen", productName, Some("/splashscreen"), 400, 500, None, None, false, None, None, Some(false), Some(true), Some(false))],
        None))
  }

  /** The configuration copies the product name and identifier, is version
      1.0.0, describes itself as "<productName> App", and declares exactly
      the two windows the splashscreen coordination acts on: first the main
      window, which starts hidden so that only `set_complete` shows it, then
      the splashscreen, which loads the splashscreen page. */
  lemma TauriConfFacts(productName: string, identifier: string)
    ensures var c := GenerateTauriConf(productName, identifier);
      && c.productName == productName && c.identifier == identifier
      && c.version == "1.0.0"
      && c.bundle.shortDescription == productName + " App"
      && |c.app.windows| == 2
      && c.app.windows[0].windowLabel == MainWindowLabel && c.app.windows[0].visible == Some(false)
      && c.app.windows[1].windowLabel == SplashWindowLabel && c.app.windows[1].url == Some("/splashscreen")
      && forall w :: 0 <= w < |c.app.windows| ==> c.app.windows[w].title == productName
  {
  }

  // ---------------------------------------------------------------------------
  // generatePackageJson
  // ---------------------------------------------------------------------------

  type Entries = seq<(string, string)>

  /** The value stored under `key` in an object written as key-value pairs. */
  function Lookup(entries: Entries, key: string): (r: Option<string>)
    ensures r.Some? <==> exists i :: 0 <= i < |entries| && entries[i].0 == key
    ensures r.Some? ==> exists i :: 0 <= i < |entries| && entries[i] == (key, r.value)
    decreases |entries|
  {
    if entries == [] then None
    else if entries[0].0 == key then
      assert entries[0] == (key, entries[0].1);
      Some(entries[0].1)
    else
      var r := Lookup(entries[1..], key);
      assert forall i :: 1 <= i < |entries| ==> entries[i] == entries[1..][i - 1];
      r
  }

  predicate DistinctKeys(entries: Entries)
  {
    forall i, j :: 0 <= i < j < |entries| ==> entries[i].0 != entries[j].0
  }

  /** `package.json`. (`type` and `private` are Dafny keywords or reserved,
      hence `moduleType` and `isPrivate`.) */
  datatype PackageJson = PackageJson(
    name: string,
    moduleType: string,
    version: string,
    isPrivate: bool,
    scripts: Entries,
    dependencies: Entries,
    devDependencies: Entries)

  const Scripts: Entries := [
    ("dev", "nuxt dev"),
    ("build", "nuxt build"),
    ("generate", "nuxt generate"),
    ("preview", "nuxt preview"),
    ("tauri:dev", "tauri dev"),
    ("tauri:build", "tauri build"),
    ("tauri:build:debug", "tauri build --debug"),
    ("tauri:android:init", "tauri android init"),
    ("tauri:android:dev", "tauri android dev"),
    ("tauri:android:build", "tauri android build"),
    ("web:dev", "NUXT_TARGET=web nuxt dev"),
    ("web:build", "NUXT_TARGET=web nuxt build"),
    ("web:preview", "NUXT_TARGET=web nuxt preview")]

  const Dependencies: Entries := [
    ("@packages/core", "workspace:*"),
    ("@tauri-apps/api", "^2.10.1"),
    ("@tauri-apps/plugin-barcode-scanner", "^2.4.4"),
    ("@tauri-apps/plugin-biometric", "^2.3.2"),
    ("@tauri-apps/plugin-deep-link", "^2.4.7"),
    ("@tauri-apps/plugin-geolocation", "^2.3.2"),
    ("@tauri-apps/plugin-http", "^2.5.7"),
    ("@tauri-apps/plugin-os", "^2.3.2"),
    ("@tauri-apps/plugin-shell", "^2.3.5"),
    ("@tauri-apps/plugin-stronghold", "^2.3.1")]

  function GeneratePackageJson(brandName: string): PackageJson
  {
    PackageJson("@apps/" + brandName, "module", "1.0.0", true, Scripts, Dependencies, [("@tauri-apps/cli", "^2.10.0")])
  }

  /** The first entry under `key` gives the looked-up value. */
  lemma LookupFirst(entries: Entries, key: string, i: nat)
    requires i < |entries| && entries[i].0 == key
    requires forall j :: 0 <= j < i ==> entries[j].0 != key
    ensures Lookup(entries, key) == Some(entries[i].1)
    decreases i
  {
    if i > 0 {
      LookupFirst(entries[1..], key, i - 1);
    }
  }

  /** Keys that are pairwise distinct look up to their own values. */
  lemma LookupDistinct(entries: Entries, i: nat)
    requires i < |entries| && DistinctKeys(entries)
    ensures Lookup(entries, entries[i].0) == Some(entries[i].1)
  {
    LookupFirst(entries, entries[i].0, i);
  }

  /** Every script name and every dependency name is written once. */
  lemma PackageJsonKeysDistinct()
    ensures DistinctKeys(Scripts) && DistinctKeys(Dependencies)
  {
  }

  /** The package is the private workspace package `@apps/<brand>`, depends
      on the shared core package through the workspace, and has the Tauri
      CLI as a development dependency. */
  lemma PackageJsonFacts(brandName: string)
    ensures var p := GeneratePackageJson(brandName);
      && p.name == "@apps/" + brandName && p.isPrivate
      && Lookup(p.dependencies, "@packages/core") == Some("workspace:*")
      && Lookup(p.devDependencies, "@tauri-apps/cli").Some?
  {
    LookupFirst(Dependencies, "@packages/core", 0);
    LookupFirst([("@tauri-apps/cli", "^2.10.0")], "@tauri-apps/cli", 0);
  }

  /** It defines the native and the web build scripts. */
  lemma PackageJsonScripts(brandName: string)
    ensures var scripts := GeneratePackageJson(brandName).scripts;
      && Lookup(scripts, "dev") == Some("nuxt dev")
      && Lookup(scripts, "build") == Some("nuxt build")
      && Lookup(scripts, "tauri:dev") == Some("tauri dev")
      && Lookup(scripts, "tauri:android:build") == Some("tauri android build")
      && Lookup(scripts, "web:dev") == Some("NUXT_TARGET=web nuxt dev")
      && Lookup(scripts, "web:build") == Some("NUXT_TARGET=web nuxt build")
      && Lookup(scripts, "web:preview") == Some("NUXT_TARGET=web nuxt preview")
  {
    PackageJsonKeysDistinct();
    LookupDistinct(Scripts, 0);
    LookupDistinct(Scripts, 1);
    LookupDistinct(Scripts, 4);
    LookupDistinct(Scripts, 9);
    LookupDistinct(Scripts, 10);
    LookupDistinct(Scripts, 11);
    LookupDistinct(Scripts, 12);
  }

  /** Every Tauri plugin package the app uses from JavaScript is a dependency. */
  lemma PackageJsonPlugins(brandName: string)
    ensures var deps := GeneratePackageJson(brandName).dependencies;
      && Lookup(deps, "@tauri-apps/plugin-http").Some?
      && Lookup(deps, "@tauri-apps/plugin-deep-link").Some?
      && Lookup(deps, "@tauri-apps/plugin-stronghold").Some?
      && Lookup(deps, "@tauri-apps/plugin-biometric").Some?
      && Lookup(deps, "@tauri-apps/plugin-barcode-scanner").Some?
      && Lookup(deps, "@tauri-apps/plugin-geolocation").Some?
  {
    assert Dependencies[6].0 == "@tauri-apps/plugin-http";
    assert Dependencies[4].0 == "@tauri-apps/plugin-deep-link";
    assert Dependencies[9].0 == "@tauri-apps/plugin-stronghold";
    assert Dependencies[3].0 == "@tauri-apps/plugin-biometric";
    assert Dependencies[2].0 == "@tauri-apps/plugin-barcode-scanner";
    assert Dependencies[5].0 == "@tauri-apps/plugin-geolocation";
  }

  // ---------------------------------------------------------------------------
  // generateAppConfig
  // ---------------------------------------------------------------------------

  /** The navigation items every new brand starts with; `buildNavItems`
      resolves these at run time. */
  const DefaultNavItems: seq<NavItem> := [
    NavItem("nav.home", "lucide:house", "/"),
    NavItem("nav.shop", "lucide:search", "/shop"),
    NavItem("nav.cart", "lucide:shopping-cart", "/cart"),
    NavItem("nav.favorites", "lucide:heart", "/favorites"),
    NavItem("nav.account", "lucide:user", "/account")]

  function LabelKeyText(labelKey: string): string
  {
    "labelKey: '" + labelKey + "'"
  }

  function NavItemLine(item: NavItem): string
  {
    "      { " + LabelKeyText(item.labelKey) + NavItemRest(item)
  }

  function NavItemRest(item: NavItem): string
  {
    ", icon: '" + item.icon + "', route: '" + item.route + "' },"
  }

  function LogoPath(brandName: string): string
  {
    "/images/" + brandName + "-logo.png"
  }

  function BrandNameText(productName: string): string
  {
    "name: '" + productName + "'"
  }

  const PrimaryColorText: string := "primary: 'cyan'"

  function AppConfigHead(brandName: string, productName: string): (r: seq<string>)
    ensures |r| == 17
    ensures r[2] == "    " + BrandNameText(productName) + ","
    ensures r[8] == "    logo: '" + LogoPath(brandName) + "',"
  {
    ["export default defineAppConfig({",
     "  brand: {",
     "    " + BrandNameText(productName) + ",",
     "    author: '" + productName + "',",
     "    colors: {",
     "      primary: '#000000',",
     "      primaryDark: '#000000',",
     "    },",
     "    logo: '" + LogoPath(brandName) + "',",
     "    metadata: {",
     "      title: '" + productName + "',",
     "      description: '" + productName + "',",
     "    },",
     "  },",
     "",
     "  nav: {",
     "    items: ["]
  }

  function NavLines(): (r: seq<string>)
    ensures |r| == |DefaultNavItems|
    ensures forall k :: 0 <= k < |r| ==> r[k] == NavItemLine(DefaultNavItems[k])
  {
    seq(|DefaultNavItems|, i requires 0 <= i < |DefaultNavItems| => NavItemLine(DefaultNavItems[i]))
  }

  function AppConfigTail(): (r: seq<string>)
    ensures |r| == 27
    ensures r[21] == "      " + PrimaryColorText + ","
  {
    ["    ],",
     "  },",
     "",
     "  // Account page menu items (add brand-specific items here)",
     "  account: {",
     "    menuItems: [",
     "      { labelKey: 'account.myOrders', icon: 'lucide:package', route: '/orders' },",
     "      { labelKey: 'account.purchasedProducts', icon: 'lucide:shopping-bag', route: '/purchased' },",
     "      { labelKey: 'account.accountSettings', icon: 'lucide:settings', route: '/settings' },",
     "      { labelKey: 'account.help', icon: 'lucide:help-circle', route: '/help' },",
     "    ],",
     "  },",
     "",
     "  // Cart page configuration (set brand-specific values)",
     "  cart: {",
     "    supportPhone: '',",
     "    freeShippingThreshold: '',",
     "  },",
     "",
     "  ui: {",
     "    colors: {",
     "      " + PrimaryColorText + ",",
     "      secondary: 'cyan',",
     "      neutral: 'neutral',",
     "    },",
     "  },",
     "})"]
  }

  function AppConfigLines(brandName: string, productName: string): seq<string>
  {
    AppConfigHead(brandName, productName) + NavLines() + AppConfigTail()
  }

  function GenerateAppConfig(brandName: string, productName: string): string
  {
    JoinLines(AppConfigLines(brandName, productName))
  }

  /** `needle` occurs inside any line of the form `before + needle + after`. */
  lemma InLine(needle: string, before: string, after: string, lines: seq<string>, k: nat)
    requires k < |lines| && lines[k] == before + needle + after
    ensures IsSubstring(needle, JoinLines(lines))
  {
    SubstringOfConcat(before, needle, after);
    LineInJoin(lines, k);
    SubstringTransitive(needle, lines[k], JoinLines(lines));
  }

  /** The configuration holds the product name, the brand's logo path and
      the cyan primary colour. */
  lemma AppConfigBrand(brandName: string, productName: string)
    ensures IsSubstring(BrandNameText(productName), GenerateAppConfig(brandName, productName))
    ensures IsSubstring(LogoPath(brandName), GenerateAppConfig(brandName, productName))
    ensures IsSubstring(PrimaryColorText, GenerateAppConfig(brandName, productName))
  {
    var lines := AppConfigLines(brandName, productName);
    var head := AppConfigHead(brandName, productName);
    assert lines[2] == head[2] && lines[8] == head[8];
    InLine(BrandNameText(productName), "    ", ",", lines, 2);
    InLine(LogoPath(brandName), "    logo: '", "',", lines, 8);
    assert lines[17 + |NavLines()| + 21] == AppConfigTail()[21];
    InLine(PrimaryColorText, "      ", ",", lines, 17 + |NavLines()| + 21);
  }

  lemma NavKeyInConfig(brandName: string, productName: string, k: nat)
    requires k < |DefaultNavItems|
    ensures IsSubstring(LabelKeyText(DefaultNavItems[k].labelKey), GenerateAppConfig(brandName, productName))
  {
    var lines := AppConfigLines(brandName, productName);
    var item := DefaultNavItems[k];
    assert lines[17 + k] == NavLines()[k];
    InLine(LabelKeyText(item.labelKey), "      { ", NavItemRest(item), lines, 17 + k);
  }

  /** The configuration holds the label key of every default navigation item. */
  lemma AppConfigNavKeys(brandName: string, productName: string)
    ensures forall k :: 0 <= k < |DefaultNavItems| ==> IsSubstring(LabelKeyText(DefaultNavItems[k].labelKey), GenerateAppConfig(brandName, productName))
  {
    forall k | 0 <= k < |DefaultNavItems|
      ensures IsSubstring(LabelKeyText(DefaultNavItems[k].labelKey), GenerateAppConfig(brandName, productName))
    {
      NavKeyInConfig(brandName, productName, k);
    }
  }

  /** The default label keys are home, shop, cart, favorites and account. */
  lemma DefaultNavLabelKeys()
    ensures seq(|DefaultNavItems|, i requires 0 <= i < |DefaultNavItems| => DefaultNavItems[i].labelKey)
      == ["nav.home", "nav.shop", "nav.cart", "nav.favorites", "nav.account"]
  {
  }

  // ---------------------------------------------------------------------------
  // The argument check
  // ---------------------------------------------------------------------------

  const UsageText: string := "\n" + JoinLines([
    "Usage: bun run new-brand <brand-name> <identifier> <product-name>",
    "",
    "Arguments:",
    "  brand-name     Lowercase kebab-case name (e.g., pharmaplus)",
    "  identifier     Reverse-domain identifier (e.g., com.pharmaplus.app)",
    "  product-name   Display name (e.g., \"PharmaPlus\")",
    "",
    "Example:",
    "  bun run new-brand pharmaplus com.pharmaplus.app \"PharmaPlus\""])

  /** The outcome of the check: print the usage and exit with a status, or
      go on with the first three arguments. */
  datatype ArgsCheck =
    | UsageError(message: string, exitCode: int)
    | Proceed(brandName: string, identifier: string, productName: string)

  /** Fewer than three arguments print the usage and exit with status 1;
      otherwise the first three are brand name, identifier and product name,
      and any further arguments are ignored. */
  function CheckArgs(args: seq<string>): (r: ArgsCheck)
    ensures r.UsageError? <==> |args| < 3
    ensures r.UsageError? ==> r.message == UsageText && r.exitCode == 1
    ensures r.Proceed? ==> r.brandName == args[0] && r.identifier == args[1] && r.productName == args[2]
  {
    if |args| < 3 then UsageError(UsageText, 1) else Proceed(args[0], args[1], args[2])
  }
}
