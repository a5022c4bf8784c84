/**
 * Application-wide constants: the sandbox working directory, the table of
 * environment-variable names per LLM provider, and the catalogue of starter
 * templates shown on the start screen.
 */
module Constants {
  import opened Wrappers

  /** Name of the project directory inside the sandbox home. */
  const WorkDirName: string := "project"

  /** The sandbox working directory: the project directory under `/home/`. */
  const WorkDir: string := "/home/" + WorkDirName

  lemma WorkDirIsHomeProject()
    ensures WorkDir == "/home/project"
    ensures |WorkDir| > 0 && WorkDir[0] == '/'
  {
  }

  // ---------------------------------------------------------------------
  // Provider environment keys
  // ---------------------------------------------------------------------

  /** The part of a provider's configuration that names its environment variables. */
  datatype ProviderConfig = ProviderConfig(baseUrlKey: Option<string>, apiTokenKey: Option<string>)

  /** One entry of the provider list supplied by the LLM manager. */
  datatype Provider = Provider(name: string, config: ProviderConfig)

  /** The value stored per provider name: both keys, each possibly absent. */
  datatype EnvKeys = EnvKeys(baseUrlKey: Option<string>, apiTokenKey: Option<string>)

  /** The record written for provider `p`: its two configured keys, copied as they are. */
  function EnvKeysOf(p: Provider): EnvKeys {
    EnvKeys(p.config.baseUrlKey, p.config.apiTokenKey)
  }

  /** The names occurring in the provider list. */
  function ProviderNames(providers: seq<Provider>): set<string> {
    set p | p in providers :: p.name
  }

  /** Provider `i` is the last one in the list that carries its name. */
  predicate IsLastWithName(providers: seq<Provider>, i: nat) {
    i < |providers| && forall j :: i < j < |providers| ==> providers[j].name != providers[i].name
  }

  /**
   * The table after visiting `providers` in order, starting from the empty
   * table: each visit (over)writes the entry of the visited provider's name.
   */
  function EnvKeyTable(providers: seq<Provider>): map<string, EnvKeys>
  {
    if providers == [] then map[]
    else
      var last := providers[|providers| - 1];
      EnvKeyTable(providers[..|providers| - 1])[last.name := EnvKeysOf(last)]
  }

  /** The table has exactly one entry per distinct provider name. */
  lemma {:induction false} EnvKeyTableDomain(providers: seq<Provider>)
    ensures EnvKeyTable(providers).Keys == ProviderNames(providers)
  {
    if providers != [] {
      var init, last := providers[..|providers| - 1], providers[|providers| - 1];
      EnvKeyTableDomain(init);
      assert providers == init + [last];
      assert ProviderNames(providers) == ProviderNames(init) + {last.name};
    }
  }

  /** The entry of a name is the record of the LAST provider with that name: later duplicates win. */
  lemma {:induction false} EnvKeyTableLastWins(providers: seq<Provider>, i: nat)
    requires IsLastWithName(providers, i)
    ensures providers[i].name in EnvKeyTable(providers)
    ensures EnvKeyTable(providers)[providers[i].name] == EnvKeysOf(providers[i])
  {
    var n := |providers|;
    if i < n - 1 {
      var init := providers[..n - 1];
      assert providers[n - 1].name != providers[i].name;
      assert IsLastWithName(init, i) by {
        forall j | i < j < |init| ensures init[j].name != init[i].name {
          assert init[j] == providers[j];
        }
      }
      EnvKeyTableLastWins(init, i);
    }
  }

  /** Visiting one more provider changes only the entry of that provider's name. */
  lemma EnvKeyTableUpdatesOneEntry(providers: seq<Provider>, p: Provider, name: string)
    requires name != p.name
    ensures name in EnvKeyTable(providers + [p]) <==> name in EnvKeyTable(providers)
    ensures name in EnvKeyTable(providers) ==> EnvKeyTable(providers + [p])[name] == EnvKeyTable(providers)[name]
    ensures EnvKeyTable(providers + [p])[p.name] == EnvKeysOf(p)
  {
  }

  /**
   * The loop that fills `providerBaseUrlEnvKeys`: start from an empty
   * dictionary, then for every provider in list order store the record of
   * its two keys under its name.
   */
  method BuildProviderBaseUrlEnvKeys(providers: seq<Provider>) returns (table: map<string, EnvKeys>)
    ensures table == EnvKeyTable(providers)
    ensures table.Keys == ProviderNames(providers)
    ensures forall i: nat :: IsLastWithName(providers, i) ==> table[providers[i].name] == EnvKeysOf(providers[i])
  {
    table := map[];
    var k := 0;
    while k < |providers|
      invariant k <= |providers|
      invariant table == EnvKeyTable(providers[..k])
    {
      var provider := providers[k];
      table := table[provider.name := EnvKeys(provider.config.baseUrlKey, provider.config.apiTokenKey)];
      assert providers[..k + 1][..k] == providers[..k];
      k := k + 1;
    }
    assert providers[..k] == providers;
    EnvKeyTableDomain(providers);
    forall i: nat | IsLastWithName(providers, i)
      ensures table[providers[i].name] == EnvKeysOf(providers[i])
    {
      EnvKeyTableLastWins(providers, i);
    }
  }

  // ---------------------------------------------------------------------
  // Starter templates
  // ---------------------------------------------------------------------

  /** A copywriting starter template as listed on the start screen. */
  datatype Template = Template(
    name: string,
    labelText: string,  // `label` in the source; a reserved word here
    description: string,
    githubRepo: string,
    tags: seq<string>,
    icon: string)

  const StarterTemplates: seq<Template> := [
    Template("Long-Form Sales Letter", "Sales Letter - Long Form",
      "Klassischer Long-Form Sales Letter mit AIDA-Framework und Storytelling", "",
      ["sales-letter", "long-form", "conversion", "aida"], "i-ph:file-text"),
    Template("Short-Form Sales Letter", "Sales Letter - Short Form",
      "Kompakter Sales Letter für schnelle Conversion-Entscheidungen", "",
      ["sales-letter", "short-form", "conversion"], "i-ph:file-text"),
    Template("VSL Script - PAS", "Video Sales Letter Script",
      "VSL-Script mit Problem-Agitate-Solution Framework und Timecodes", "",
      ["vsl", "video", "script", "pas-framework"], "i-ph:video"),
    Template("Landing Page - Lead Gen", "Landing Page für Lead-Generierung",
      "Conversion-optimierte Landing Page für E-Mail-Sammlung und Lead-Magnets", "",
      ["landing-page", "lead-generation", "conversion"], "i-ph:desktop"),
    Template("Landing Page - Webinar", "Webinar-Anmeldeseite",
      "Landing Page speziell für Webinar-Registrierungen mit Countdown", "",
      ["landing-page", "webinar", "registration"], "i-ph:presentation"),
    Template("E-Book Chapter", "Buchkapitel (Ratgeber)",
      "Strukturiertes Buchkapitel mit Einleitung, Hauptteil und Zusammenfassung", "",
      ["book", "e-book", "chapter", "ratgeber"], "i-ph:book"),
    Template("Email Sequence", "E-Mail-Sequenz",
      "5-teilige E-Mail-Sequenz für Produktlaunch oder Nurturing", "",
      ["email", "sequence", "nurture", "launch"], "i-ph:envelope"),
    Template("Facebook Ad Copy", "Facebook/Instagram Ads",
      "Social Media Ad-Copy mit Hook, Benefit und CTA", "",
      ["ads", "facebook", "instagram", "social-media"], "i-ph:megaphone"),
    Template("Google Ads Copy", "Google Ads",
      "Suchmaschinen-Anzeigen mit optimierten Headlines und Descriptions", "",
      ["ads", "google", "search", "ppc"], "i-ph:magnifying-glass"),
    Template("Product Description", "Produktbeschreibung",
      "Benefit-fokussierte Produktbeschreibung für E-Commerce", "",
      ["product", "e-commerce", "description"], "i-ph:shopping-cart")
  ]

  /** Template names are pairwise distinct, so they can serve as list keys. */
  lemma StarterTemplateNamesDistinct()
    ensures |StarterTemplates| == 10
    ensures forall i, j :: 0 <= i < j < |StarterTemplates| ==> StarterTemplates[i].name != StarterTemplates[j].name
  {
  }

  /** No starter template points at a repository. */
  lemma StarterTemplatesHaveNoRepo()
    ensures forall t :: t in StarterTemplates ==> t.githubRepo == ""
  {
  }
}
