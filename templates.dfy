/**
 * The data of constants.js: the template bodies, the catalog of files to
 * write into a new project, the npm-scripts patch and the pinned development
 * dependencies. The facts about the data are in the Catalog module. A
 * multi-line template body is written one source line at a time, each piece
 * ending in the newline that ends that line. The catalog's records are built
 * by a function of their texts, so that facts about its paths can be stated
 * for any texts and need not look at the template bodies.
 */
module Templates {

  /** One catalog record: a path relative to the project root and the text to
      put there. */
  datatype Entry = Entry(file: string, content: string)

  const PrettierConfig: string := "{}"

  const PrettierIgnoreConfig: string := "# Ignore artifacts:\nbuild\ncoverage"

  const EslintConfig: string :=
    "{\n" +
    "  \"extends\": [\"react-app\", \"react-app/jest\", \"prettier\"],\n" +
    "  \"plugins\": [\"simple-import-sort\", \"import\"],\n" +
    "  \"rules\": {\n" +
    "    \"simple-import-sort/imports\": \"error\",\n" +
    "    \"simple-import-sort/exports\": \"error\",\n" +
    "    \"import/first\": \"error\",\n" +
    "    \"import/newline-after-import\": \"error\",\n" +
    "    \"import/no-duplicates\": \"error\"\n" +
    "  },\n" +
    "  \"overrides\": [\n" +
    "    // override \"simple-import-sort\" config\n" +
    "    {\n" +
    "      \"files\": [\"*.js\", \"*.jsx\", \"*.ts\", \"*.tsx\"],\n" +
    "      \"rules\": {\n" +
    "        \"simple-import-sort/imports\": [\n" +
    "          \"error\",\n" +
    "          {\n" +
    "            \"groups\": [\n" +
    "              // Packages \"react\" related packages come first.\n" +
    "              [\"^react\", \"^@?\\\\w\"],\n" +
    "              // Side effect imports.\n" +
    "              [\"^\\\\u0000\"],\n" +
    "              // Internal packages.\n" +
    "              [\"^(@|components)(/.*|$)\"],\n" +
    "              // Parent imports. Put \"..\" last.\n" +
    "              [\"^\\\\.\\\\.(?!/?$)\", \"^\\\\.\\\\./?$\"],\n" +
    "              // Other relative imports. Put same-folder imports and \".\" last.\n" +
    "              [\"^\\\\./(?=.*/)(?!/?$)\", \"^\\\\.(?!/?$)\", \"^\\\\./?$\"],\n" +
    "              // Style imports.\n" +
    "              [\"^.+\\\\.?(css)$\"]\n" +
    "            ]\n" +
    "          }\n" +
    "        ]\n" +
    "      }\n" +
    "    }\n" +
    "  ]\n" +
    "}"

  const CyComponentName: string :=
    "describe('ComponentName.cy.ts', () => {\n" +
    "  it('playground', () => {\n" +
    "    // cy.mount()\n" +
    "  })\n" +
    "})"

  const CySpec: string :=
    "describe('empty spec', () => {\n" +
    "  it('passes', () => {\n" +
    "    cy.visit(\"/\");\n" +
    "  })\n" +
    "})"

  const CyExample: string :=
    "{\n" +
    "  \"name\": \"Using fixtures to represent data\",\n" +
    "  \"email\": \"hello@cypress.io\",\n" +
    "  \"body\": \"Fixtures are a great way to mock data for responses to routes\"\n" +
    "}"

  const CyCommands: string :=
    "/// <reference types=\"cypress\" />\n" +
    "// ***********************************************\n" +
    "// This example commands.ts shows you how to\n" +
    "// create various custom commands and overwrite\n" +
    "// existing commands.\n" +
    "//\n" +
    "// For more comprehensive examples of custom\n" +
    "// commands please read more here:\n" +
    "// https://on.cypress.io/custom-commands\n" +
    "// ***********************************************\n" +
    "//\n" +
    "//\n" +
    "// -- This is a parent command --\n" +
    "// Cypress.Commands.add('login', (email, password) => { ... })\n" +
    "//\n" +
    "//\n" +
    "// -- This is a child command --\n" +
    "// Cypress.Commands.add('drag', { prevSubject: 'element'}, (subject, options) => { ... })\n" +
    "//\n" +
    "//\n" +
    "// -- This is a dual command --\n" +
    "// Cypress.Commands.add('dismiss', { prevSubject: 'optional'}, (subject, options) => { ... })\n" +
    "//\n" +
    "//\n" +
    "// -- This will overwrite an existing command --\n" +
    "// Cypress.Commands.overwrite('visit', (originalFn, url, options) => { ... })\n" +
    "//\n" +
    "// declare global {\n" +
    "//   namespace Cypress {\n" +
    "//     interface Chainable {\n" +
    "//       login(email: string, password: string): Chainable<void>\n" +
    "//       drag(subject: string, options?: Partial<TypeOptions>): Chainable<Element>\n" +
    "//       dismiss(subject: string, options?: Partial<TypeOptions>): Chainable<Element>\n" +
    "//       visit(originalFn: CommandOriginalFn, url: string, options: Partial<VisitOptions>): Chainable<Element>\n" +
    "//     }\n" +
    "//   }\n" +
    "// }\n" +
    "import \"@frsource/cypress-plugin-visual-regression-diff\";\n" +
    "import \"@cypress/code-coverage/support\";"

  const CyComponentIndex: string :=
    "<!DOCTYPE html>\n" +
    "<html>\n" +
    "  <head>\n" +
    "    <meta charset=\"utf-8\">\n" +
    "    <meta http-equiv=\"X-UA-Compatible\" content=\"IE=edge\">\n" +
    "    <meta name=\"viewport\" content=\"width=device-width,initial-scale=1.0\">\n" +
    "    <title>Components App</title>\n" +
    "  </head>\n" +
    "  <body>\n" +
    "    <div data-cy-root></div>\n" +
    "  </body>\n" +
    "</html>"

  const CyComponent: string :=
    "// ***********************************************************\n" +
    "// This example support/component.ts is processed and\n" +
    "// loaded automatically before your test files.\n" +
    "//\n" +
    "// This is a great place to put global configuration and\n" +
    "// behavior that modifies Cypress.\n" +
    "//\n" +
    "// You can change the location of this file or turn off\n" +
    "// automatically serving support files with the\n" +
    "// 'supportFile' configuration option.\n" +
    "//\n" +
    "// You can read more here:\n" +
    "// https://on.cypress.io/configuration\n" +
    "// ***********************************************************\n" +
    "\n" +
    "// Import commands.js using ES2015 syntax:\n" +
    "// Alternatively you can use CommonJS syntax:\n" +
    "// require('./commands')\n" +
    "import { mount } from \"cypress/react18\";\n" +
    "\n" +
    "import \"./commands\";\n" +
    "\n" +
    "// Augment the Cypress namespace to include type definitions for\n" +
    "// your custom command.\n" +
    "// Alternatively, can be defined in cypress/support/component.d.ts\n" +
    "// with a <reference path=\"./component\" /> at the top of your spec.\n" +
    "declare global {\n" +
    "  namespace Cypress {\n" +
    "    interface Chainable {\n" +
    "      mount: typeof mount;\n" +
    "    }\n" +
    "  }\n" +
    "}\n" +
    "\n" +
    "Cypress.Commands.add(\"mount\", mount);\n" +
    "\n" +
    "// Example use:\n" +
    "// cy.mount(<MyComponent />)\n"

  const CyE2e: string :=
    "// ***********************************************************\n" +
    "// This example support/e2e.ts is processed and\n" +
    "// loaded automatically before your test files.\n" +
    "//\n" +
    "// This is a great place to put global configuration and\n" +
    "// behavior that modifies Cypress.\n" +
    "//\n" +
    "// You can change the location of this file or turn off\n" +
    "// automatically serving support files with the\n" +
    "// 'supportFile' configuration option.\n" +
    "//\n" +
    "// You can read more here:\n" +
    "// https://on.cypress.io/configuration\n" +
    "// ***********************************************************\n" +
    "\n" +
    "// Import commands.js using ES2015 syntax:\n" +
    "import './commands'\n" +
    "\n" +
    "// Alternatively you can use CommonJS syntax:\n" +
    "// require('./commands')"

  const CyEslintrc: string :=
    "{\n" +
    "  \"extends\": [\"plugin:cypress/recommended\"]\n" +
    "}"

  const CyTsconfig: string :=
    "{\n" +
    "  \"compilerOptions\": {\n" +
    "    \"target\": \"es5\",\n" +
    "    \"lib\": [\"es5\", \"dom\"],\n" +
    "    \"types\": [\"cypress\", \"node\"]\n" +
    "  },\n" +
    "  \"include\": [\"**/*.ts\"]\n" +
    "}"

  const CyCypressConfig: string :=
    "import codeCoverage from \"@cypress/code-coverage/task\";\n" +
    "import { initPlugin } from \"@frsource/cypress-plugin-visual-regression-diff/plugins\";\n" +
    "import { defineConfig } from \"cypress\";\n" +
    "\n" +
    "export default defineConfig({\n" +
    "  video: false,\n" +
    "  env: {\n" +
    "    pluginVisualRegressionCleanupUnusedImages: false,\n" +
    "  },\n" +
    "  component: {\n" +
    "    devServer: {\n" +
    "      framework: \"create-react-app\",\n" +
    "      bundler: \"webpack\",\n" +
    "    },\n" +
    "    setupNodeEvents(on, config) {\n" +
    "      initPlugin(on, config);\n" +
    "      codeCoverage(on, config);\n" +
    "\n" +
    "      return config;\n" +
    "    },\n" +
    "  },\n" +
    "  e2e: {\n" +
    "    baseUrl: \"http://localhost:3000\",\n" +
    "    setupNodeEvents(on, config) {\n" +
    "      // implement node event listeners here\n" +
    "      initPlugin(on, config);\n" +
    "      codeCoverage(on, config);\n" +
    "\n" +
    "      return config;\n" +
    "    },\n" +
    "  },\n" +
    "});"

  const GitIgnoreConfig: string :=
    "# See https://help.github.com/articles/ignoring-files/ for more about ignoring files.\n" +
    "\n" +
    "# dependencies\n" +
    "/node_modules\n" +
    "/.pnp\n" +
    ".pnp.js\n" +
    "\n" +
    "# testing\n" +
    "/coverage\n" +
    "/.nyc_output\n" +
    "\n" +
    "# production\n" +
    "/build\n" +
    "\n" +
    "# misc\n" +
    ".DS_Store\n" +
    ".env.local\n" +
    ".env.development.local\n" +
    ".env.test.local\n" +
    ".env.production.local\n" +
    "\n" +
    "npm-debug.log*\n" +
    "yarn-debug.log*\n" +
    "yarn-error.log*\n"

  const HuskyPreCommit: string :=
    "#!/bin/sh\n" +
    ". \"$(dirname \"$0\")/_/husky.sh\"\n" +
    "\n" +
    "npm run format"

  const HuskyPrePush: string :=
    "#!/bin/sh\n" +
    ". \"$(dirname \"$0\")/_/husky.sh\"\n" +
    "\n" +
    "CI=true npm test && npm run cy"

  /** The catalog's records, in the order constants.js lists them, with the
      text of the k-th record taken from texts[k]. */
  function Catalog(texts: seq<string>): (es: seq<Entry>)
    requires |texts| == 16
    ensures |es| == 16 && forall k :: 0 <= k < 16 ==> es[k].content == texts[k]
  {
    [
      Entry(".prettierrc", texts[0]),
      Entry(".eslintrc", texts[1]),
      Entry(".prettierignore", texts[2]),
      Entry("cypress/component/ComponentName.cy.ts", texts[3]),
      Entry("cypress/e2e/spec.cy.ts", texts[4]),
      Entry("cypress/fixtures/example.json", texts[5]),
      Entry("cypress/support/commands.ts", texts[6]),
      Entry("cypress/support/component-index.html", texts[7]),
      Entry("cypress/support/component.ts", texts[8]),
      Entry("cypress/support/e2e.ts", texts[9]),
      Entry("cypress/.eslintrc", texts[10]),
      Entry("cypress/tsconfig.json", texts[11]),
      Entry("cypress.config.ts", texts[12]),
      Entry(".gitignore", texts[13]),
      Entry(".husky/pre-commit", texts[14]),
      Entry(".husky/pre-push", texts[15])
    ]
  }

  /** The template each record carries, in catalog order. */
  const Texts: seq<string> := [
    PrettierConfig,
    EslintConfig,
    PrettierIgnoreConfig,
    CyComponentName,
    CySpec,
    CyExample,
    CyCommands,
    CyComponentIndex,
    CyComponent,
    CyE2e,
    CyEslintrc,
    CyTsconfig,
    CyCypressConfig,
    GitIgnoreConfig,
    HuskyPreCommit,
    HuskyPrePush
  ]

  /** The catalog itself: each path with its template. */
  const Files: seq<Entry> := Catalog(Texts)

  /** The npm scripts a new project gets. */
  const NpmScripts: map<string, string> := map[
    "cy" := "start-server-and-test cy:server 3000 cy:run",
    "cy:dev" := "start-server-and-test cy:server 3000 cy:open",
    "cy:open" := "cypress open",
    "cy:run" := "cypress run",
    "cy:server" := "cross-env NODE_ENV=test BROWSER=none react-scripts -r @cypress/instrument-cra start",
    "format" := "npm run prettier:fix && npm run lint:fix",
    "lint" := "npx eslint src",
    "lint:fix" := "npm run lint -- --fix",
    "prepare" := "husky install",
    "prettier" := "npx prettier src --check",
    "prettier:fix" := "npm run prettier -- --write"
  ]

  /** The development dependencies, each pinned as name@version. */
  const Dependencies: seq<string> := [
    "@cypress/code-coverage@3.10.0",
    "@cypress/instrument-cra@1.4.0",
    "@frsource/cypress-plugin-visual-regression-diff@3.2.8",
    "@testing-library/cypress@9.0.0",
    "@testing-library/jest-dom@5.16.5",
    "@testing-library/react@13.4.0",
    "@testing-library/user-event@14.4.3",
    "@types/jest@29.2.5",
    "@types/node@18.11.18",
    "@types/react@18.0.26",
    "@types/react-dom@18.0.10",
    "cross-env@7.0.3",
    "cypress@12.3.0",
    "eslint-config-prettier@8.6.0",
    "eslint-plugin-cypress@2.12.1",
    "eslint-plugin-simple-import-sort@9.0.0",
    "husky@8.0.3",
    "prettier@2.8.3",
    "react-scripts@5.0.1",
    "start-server-and-test@1.15.2",
    "typescript@4.9.4",
    "web-vitals@3.1.1"
  ]
}
