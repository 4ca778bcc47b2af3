/**
 * bin.js spells out inline, and constants.js lists as data, the same npm
 * scripts and the same settings files. The lemmas here say the two copies
 * agree.
 */
module Agreement {
  import opened Templates
  import Catalog
  import Script
  import Descriptor

  /** The npm-scripts list of constants.js is the overlay bin.js applies: the
      same names, each with the same command. */
  lemma NpmScriptsMatchOverlay()
    ensures NpmScripts == Descriptor.ScriptsPatch
  {
  }

  /** bin.js writes .prettierrc, .eslintrc and .prettierignore with the texts
      the catalog carries for them (its records 0, 1 and 2), and the line it
      appends to .gitignore is a line of the catalog's .gitignore template
      (record 13). */
  lemma InlineSettingsMatchTemplates()
    ensures Script.Inline.prettier == PrettierConfig
    ensures Script.Inline.eslint == EslintConfig
    ensures Script.Inline.prettierIgnore == PrettierIgnoreConfig
    ensures Catalog.HasLine(GitIgnoreConfig, Script.Inline.gitIgnore)
  {
    Catalog.GitIgnoreIgnoresNycOutput();
  }
}
