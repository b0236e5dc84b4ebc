# A verified model of the legal-studies app's decision logic

The app is a React front end for law students: a catalog of study
"functions" (video lessons, flashcards, the digital Vade Mecum, an AI
assistant, essay correction, …) shown as a categorised grid and as four
category cards, a bottom menu, a sign-up/sign-in screen backed by an
authentication context, and a few feature screens. Almost all of it is
rendering; this project models the parts that decide something, and proves
what they promise.

- **Router** (`AppFunction`). `Resolve(loading, selection, record)` picks
  the screen for the selected function name and the catalog record found for
  it. It tries four "always internal" substring rules on the lower-cased name,
  then the record's non-blank link, then seven more substring rules, and
  finally the "in development" placeholder. The same policy is also written as
  data, `ResolveByTable`: ordered keyword rule tables (module `Rules`) with no
  exact-literal tests. The two are proved equal on every input.
- **Catalog grid** (`FeaturesGrid`): the icon cascade (written as a keyword
  rule table), grouping of catalog entries into the five configured
  categories (a method with a loop, proved equal to a filter specification),
  and which sections, cards and notices are shown.
- **Category dialog and cards** (`CategoryDialog`, `CategoryAccess`): the
  description table, the constant gradient, what each button raises, the four
  category cards, their title layout and the `selectedCategory` state (a class).
- **Bottom menu** (`FooterMenu`): the first-match catalog search, the five
  items, the mobile left/centre/right layout and the click handler (a class).
- **Home page** (`IndexPage`): which top-level screen wins, and the
  first-visit intro flag (a class).
- **Essay screen** (`Redacao`): grade badges, the word count of
  `split(/\s+/)` proved equal to a count of maximal non-whitespace runs, and
  the tab state (a class).
- **Authentication** (`AuthContext`, `AuthScreen`): profile-type
  normalisation, the fallback profile and display name, the auth-state
  listener and sign-out (a class), the form rules, the toast classification
  and the busy flag (a class).
- **Study-plan confirmation** (`ConfirmacaoAnalise`): confidence bands,
  icons and the loading-disabled buttons.
- **Assistant chat** (`Chat`): the message list guarded against blank
  input, the reply typed out one character per tick (a loop whose invariant
  is `typingMessage == content[..index]`), and a whole conversation proved to
  show exactly the sent inputs, each followed by the fixed reply.

Shared modules: `Text` models JavaScript's `includes`, `toLowerCase`,
`trim` and the `\s` class; `Rules` holds first-match rule tables; `Seqs`
holds an order-preserving filter with its facts; `Catalog`, `Optional` and
`Navigation` hold the catalog record, optional values and the shared
"current function" selection.

`toLowerCase` is modelled for A–Z and the Latin-1 capitals only, which
covers every name and keyword the code compares. `trim` and `\s` use the
exact ECMAScript whitespace set.

## Model

| member | source | states |
|---|---|---|
| Text.TrimStartSpec | src/components/Redacao.tsx:34 | `trim` removes exactly the leading whitespace: what it drops is whitespace and what it keeps starts with a visible character |
| Text.TrimEndSpec | src/components/Redacao.tsx:34 | the same for the trailing whitespace |
| Text.BlankIffAllWhitespace | src/components/AppFunctionOptimized.tsx:105 | a string is empty after `trim` exactly when all its characters are whitespace |
| Text.LowerIdempotent | src/components/AppFunctionOptimized.tsx:74 | lower-casing a lower-cased name changes nothing |
| AppFunction.AlwaysInternalScreen | src/components/AppFunctionOptimized.tsx:80-102 | the first four rules pick a screen exactly when one of their tests holds, and only ever the downloads, desktop-platform, video-lesson or legal-news screen |
| AppFunction.LinkLessScreen | src/components/AppFunctionOptimized.tsx:123-180 | after the link test the result is an internal screen other than those four, or the placeholder titled with the name, and the placeholder exactly when none of the seven tests holds |
| AppFunction.Resolve | src/components/AppFunctionOptimized.tsx:65-180 | the loader exactly while loading; nothing exactly for a null or empty selection once loaded; an embedded page only for a usable link, and showing that link; with a usable link, no internal screen but the four always-internal ones; the placeholder only without a usable link, titled with the selection |
| AppFunction.ResolveByTable | src/components/AppFunctionOptimized.tsx:65-180 | the rule-table form keeps the same five guarantees on its own |
| AppFunction.ResolveAgreesWithTable | src/components/AppFunctionOptimized.tsx:65-180 | the if-cascade and the two ordered keyword tables (no exact-literal tests, link rule in between) decide the same view on every input |
| AppFunction.AlwaysInternalRulesMatchTests | src/components/AppFunctionOptimized.tsx:81-102 | each of the first four rules fires on the lower-cased name exactly when the cascade's test for that screen holds |
| AppFunction.LinkLessRulesMatchTests | src/components/AppFunctionOptimized.tsx:123-153 | each of the seven link-less rules fires exactly when the cascade's test holds, "biblioteca" and "clássicos" both being needed |
| AppFunction.ExactLiteralsRedundantBeforeLink | src/components/AppFunctionOptimized.tsx:81-100 | every `currentFunction === '…'` test before the link is implied by the substring test on the lower-cased name |
| AppFunction.ExactLiteralsRedundantAfterLink | src/components/AppFunctionOptimized.tsx:140-151 | the same for the exact tests of the assistant, study-plan and essay rules |
| AppFunction.LoadingAndEmptySelection | src/components/AppFunctionOptimized.tsx:65-71 | loading shows the loader whatever is selected; a null or empty selection renders nothing; any other selection renders a screen, a page or the placeholder |
| AppFunction.AlwaysInternalIgnoresRecord | src/components/AppFunctionOptimized.tsx:80-105 | names caught by the first four rules reach their internal screen whatever record, link included, the catalog holds |
| AppFunction.LinkPrecedence | src/components/AppFunctionOptimized.tsx:105-120 | once the first four rules fail, a usable link beats every later rule; the page title is `funcao`, or the selection when `funcao` is empty |
| AppFunction.BlankLinkIsIgnored | src/components/AppFunctionOptimized.tsx:105 | an absent, empty or whitespace-only link routes exactly as if there were no record |
| AppFunction.LinkLessOrdering | src/components/AppFunctionOptimized.tsx:131-153 | "assistente" outranks "plano" and "redação", "plano" outranks "redação", and the classics screen needs both of its keywords |
| AppFunction.PlaceholderKeepsName | src/components/AppFunctionOptimized.tsx:156-180 | the placeholder is reached only without a usable link and is titled with the selection as typed, not lower-cased |
| AppFunction.RoutingIsCaseInsensitive | src/components/AppFunctionOptimized.tsx:74 | names with the same lower-case form reach the same internal screen, and both or neither open a page or the placeholder |
| AppFunction.DownloadsIgnoresItsLink | src/components/AppFunctionOptimized.tsx:81-83 | "Downloads" with a linked record still opens the internal downloads screen |
| AppFunction.VadeMecumOpensItsLink | src/components/AppFunctionOptimized.tsx:105-120 | an ordinary entry with a link opens that link, titled by its name |
| AppFunction.PlanoDeEstudoRoutes | src/components/AppFunctionOptimized.tsx:146-148 | "Plano de Estudo" without a record reaches the study-plan screen |
| AppFunction.UnknownNameFallsBack | src/components/AppFunctionOptimized.tsx:156-180 | a name no rule knows falls back to the placeholder with its own title |
| AppFunction.HandleBack | src/components/AppFunctionOptimized.tsx:61-63 | the back button clears the navigation's current function |
| Navigation.NavigationState.SetCurrentFunction | src/components/AppFunctionOptimized.tsx:62 | the shared selection becomes exactly the value given |
| FeaturesGrid.IconFor | src/components/FeaturesGrid.tsx:44-68 | the icon drawn is the icon of the first line that fires on the id or the lower-cased name (any line that fires with none firing before it decides), and the default book exactly when no line fires |
| FeaturesGrid.IconForIdOne | src/components/FeaturesGrid.tsx:48 | id 1 is drawn with the scale whatever its name |
| FeaturesGrid.NameRuleBeatsLaterIdRule | src/components/FeaturesGrid.tsx:48-56 | a name mentioning "vade" gets the scale whatever its id, so an earlier name rule beats a later id rule |
| FeaturesGrid.VadeMecumWithVideoId | src/components/FeaturesGrid.tsx:48-56 | "Vade Mecum" filed under the video id 8 gets the scale, not the play icon |
| FeaturesGrid.AssistenteLineGrouping | src/components/FeaturesGrid.tsx:49 | the second line fires exactly for id 12 or a name containing both "assistente" and "ia" (`&&` binds tighter than `\|\|`) |
| FeaturesGrid.BotIconWhenSecondLineFires | src/components/FeaturesGrid.tsx:48-49 | when the first line does not fire and the second does, the robot is drawn |
| FeaturesGrid.IconDefault | src/components/FeaturesGrid.tsx:48-67 | whenever no line fires, including for a name holding only one keyword of a two-keyword line such as "mapa" without "mental", the default book icon is drawn |
| FeaturesGrid.GroupFor | src/components/FeaturesGrid.tsx:118 | a group is an order-preserving subsequence of the catalog holding exactly the entries with a listed id other than 14 |
| FeaturesGrid.Grouping | src/components/FeaturesGrid.tsx:113-122 | one group per configured category, named after it, holding exactly the catalog entries with a listed id other than 14 |
| FeaturesGrid.GroupFunctionsByCategory | src/components/FeaturesGrid.tsx:113-122 | the loop builds one group per configured category, in configuration order, each the category's filter of the catalog |
| FeaturesGrid.GroupIsFilteredCatalog | src/components/FeaturesGrid.tsx:117-120 | each group keeps its category's name, preserves catalog order, and holds every entry with a listed id (other than 14) with its multiplicity, and nothing else |
| FeaturesGrid.DuplicateNeverGrouped | src/components/FeaturesGrid.tsx:118 | no group ever holds an entry with id 14 |
| FeaturesGrid.IdOneInTwoGroups | src/components/FeaturesGrid.tsx:13-25 | an entry with id 1 appears both in the library group and in the tools group |
| FeaturesGrid.OnlyIdOneIsShared | src/components/FeaturesGrid.tsx:10-41 | id 1 is the only id two categories share |
| FeaturesGrid.CardFor | src/components/FeaturesGrid.tsx:178-200 | a card carries the entry's id, name and icon; a non-empty description of the entry is shown as it is, and the default text shows exactly when the entry's own is absent, empty or that same text |
| FeaturesGrid.CardsFor | src/components/FeaturesGrid.tsx:177-203 | one card per group member, in member order |
| FeaturesGrid.Sections | src/components/FeaturesGrid.tsx:162-177 | one section per shown group, in order, titled by the group and holding its members' cards |
| FeaturesGrid.RenderWhileLoading | src/components/FeaturesGrid.tsx:124-146 | while loading only the eight placeholder cards are shown |
| FeaturesGrid.RenderedSectionsAreNonEmpty | src/components/FeaturesGrid.tsx:163 | once loaded, no rendered category section is empty |
| FeaturesGrid.SectionShownIffNonEmpty | src/components/FeaturesGrid.tsx:162-163 | a group is rendered as a section exactly when it has a member |
| FeaturesGrid.NonEmptyGroupsAreRendered | src/components/FeaturesGrid.tsx:148-177 | each configured category is shown, with one card per member, exactly when its group is non-empty |
| FeaturesGrid.EmptyCatalogNotice | src/components/FeaturesGrid.tsx:212 | the "no functions" notice appears exactly for an empty loaded catalog, and then no section is shown |
| CategoryDialog.FunctionDescription | src/components/CategoryDialog.tsx:128-147 | a function's description is never empty, and a name the table lists gets its own text |
| CategoryDialog.DescriptionTableShape | src/components/CategoryDialog.tsx:129-146 | none of the sixteen descriptions is empty or equal to the default |
| CategoryDialog.DescriptionLookup | src/components/CategoryDialog.tsx:128-147 | a name gets the default text exactly when the table lacks it, and a listed name gets its own text |
| CategoryDialog.LookupIsCaseSensitive | src/components/CategoryDialog.tsx:147 | "videoaulas" gets the default although "Videoaulas" is listed |
| CategoryDialog.GradientIgnoresColour | src/components/CategoryDialog.tsx:41-44 | the dialog gradient is the same red for every category colour |
| CategoryDialog.RenderShape | src/components/CategoryDialog.tsx:31-94 | a null category renders nothing; otherwise the carousel appears exactly for "Biblioteca e Leituras" and the rows follow the category's functions |
| CategoryDialog.Raise | src/components/CategoryDialog.tsx:28-45 | a null category raises nothing; a row click forwards only a name the category lists; Back and dismissal ask to close, exactly when a category is shown |
| CategoryDialog.RaiseForwardsShownName | src/components/CategoryDialog.tsx:31-37 | clicking a row forwards exactly the name shown on it; Back asks only to close; a null category raises nothing |
| CategoryAccess.CategoriesShape | src/components/CategoryAccessSection.tsx:16-48 | four categories, ids 1 to 4 in order, each listing at least one function |
| CategoryAccess.OnlyLibraryHasCarousel | src/components/CategoryAccessSection.tsx:24-31 | of the four cards only the second, the library, opens a dialog with the carousel |
| CategoryAccess.FirstCardsDescribed | src/components/CategoryAccessSection.tsx:23-31 | every function of the first two cards has its own description except "Resumos Jurídicos" |
| CategoryAccess.LastCardsDescribed | src/components/CategoryAccessSection.tsx:39-47 | every function of the last two cards has its own description |
| CategoryAccess.RenderCategoryTitle | src/components/CategoryAccessSection.tsx:58-73 | the lines of a card title, joined by a space, give the title back, and it breaks exactly for the two listed titles |
| CategoryAccess.WhichCardTitlesBreak | src/components/CategoryAccessSection.tsx:58-73 | among the four cards exactly the second and third break their title |
| CategoryAccess.CategorySection.constructor | src/components/CategoryAccessSection.tsx:15 | no category is selected at first |
| CategoryAccess.CategorySection.ClickCategory | src/components/CategoryAccessSection.tsx:49-51 | clicking a category selects it and opens the dialog |
| CategoryAccess.CategorySection.SelectFunction | src/components/CategoryAccessSection.tsx:52-55 | selecting a function makes it the current function and closes the dialog |
| CategoryAccess.CategorySection.OpenChange | src/components/CategoryAccessSection.tsx:144 | a close request clears the selection; an open request changes nothing |
| CategoryAccess.CategorySection.DialogAction | src/components/CategoryAccessSection.tsx:144 | an action in the dialog has exactly the effect of the callback it raises, and none without a selected category |
| FooterMenu.FindIndex | src/components/FooterMenu.tsx:19-23 | the search stops at the first entry whose lower-cased name contains the lower-cased term, or past the end when none does |
| FooterMenu.FindFunction | src/components/FooterMenu.tsx:19-23 | the search finds nothing exactly when no entry matches, and otherwise a catalog entry that matches |
| FooterMenu.FindFunctionIsFirstMatch | src/components/FooterMenu.tsx:19-23 | the search finds nothing exactly when no entry matches, and otherwise the first matching entry in catalog order |
| FooterMenu.FindFunctionIgnoresCase | src/components/FooterMenu.tsx:21 | terms with the same lower-case form find the same entry |
| FooterMenu.JuriflixItemTarget | src/components/FooterMenu.tsx:59 | the Juriflix item targets the first entry mentioning "juriflix" in any case, or "Juriflix" when there is none or its name is empty |
| FooterMenu.MenuItems | src/components/FooterMenu.tsx:25-62 | five items, the fourth being the special assistant, and every item with a non-empty target |
| FooterMenu.MenuShape | src/components/FooterMenu.tsx:25-62 | five items with distinct ids; exactly the fourth, the assistant, is special |
| FooterMenu.MobileLeft | src/components/FooterMenu.tsx:193 | the left group is two items which, followed by the last three, give back the whole menu |
| FooterMenu.MobileCentre | src/components/FooterMenu.tsx:221 | when the fourth item is the assistant, the centre is the assistant and the right group does not draw it again |
| FooterMenu.MobileRight | src/components/FooterMenu.tsx:239 | the right group holds at most three items: exactly those of the last three that are not the assistant |
| FooterMenu.MobileRightSkipsAssistant | src/components/FooterMenu.tsx:239 | with only the fourth item being the assistant, the right group is the third item then the fifth |
| FooterMenu.MobilePlacesCoverItems | src/components/FooterMenu.tsx:193-239 | the left pair, the centre and the third and fifth items together are the five items, each once |
| FooterMenu.MobileLayoutOfMenu | src/components/FooterMenu.tsx:190-239 | on the menu itself the left group is the first two items, the centre is the assistant, the right group is the library and Juriflix, and each item is drawn once |
| FooterMenu.FooterMenuState.constructor | src/components/FooterMenu.tsx:13-14 | the home item starts highlighted and the document analyser closed |
| FooterMenu.FooterMenuState.HandleItemClick | src/components/FooterMenu.tsx:101-109 | a click highlights the item; the assistant opens the analyser and keeps the selection; any other item selects its target and leaves the analyser alone |
| FooterMenu.FooterMenuState.CloseDocumentAnalyzer | src/components/FooterMenu.tsx:163 | the analyser's back button closes it and keeps the highlight |
| FooterMenu.AtMostOneActive | src/components/FooterMenu.tsx:13 | with distinct ids at most one menu item is highlighted |
| IndexPage.ChooseScreen | src/pages/Index.tsx:59-91 | the function screen exactly when a function is open; the intro exactly when none is open and the intro flag is on; the desktop layout only off mobile and tablet |
| IndexPage.ScreenConditions | src/pages/Index.tsx:59-91 | each top-level screen is shown exactly under its condition: an open function beats the intro, which beats mobile, then tablet, then the desktop default |
| IndexPage.IndexPageState.constructor | src/pages/Index.tsx:37 | the intro starts hidden |
| IndexPage.IndexPageState.Mount | src/pages/Index.tsx:40-45 | mounting turns the intro on exactly when the stored flag is missing or empty, and never turns it off |
| IndexPage.IndexPageState.HandleIntroComplete | src/pages/Index.tsx:54-56 | completing the intro hides it |
| IndexPage.FirstVisit | src/pages/Index.tsx:37-82 | after mounting the intro shows exactly on a first visit outside a function, and after completing it the intro never shows |
| Redacao.GetNota | src/components/Redacao.tsx:52-60 | no badge exactly without a grade text, and an unparsable grade gets the worst badge |
| Redacao.GradeBands | src/components/Redacao.tsx:52-60 | no badge without a grade text; each band holds exactly on its half-open interval, and an unparsable grade gets the worst |
| Redacao.GradeMonotone | src/components/Redacao.tsx:56-59 | a higher grade never gets a worse badge |
| Redacao.SplitOnSpaces | src/components/Redacao.tsx:150 | splitting on whitespace runs gives at least one piece, and no piece holds whitespace |
| Redacao.WordsAreRuns | src/components/Redacao.tsx:150 | the number of non-empty pieces of the split equals the number of maximal non-whitespace runs, counted left to right |
| Redacao.NoWordsIffBlank | src/components/Redacao.tsx:150 | a text has no words exactly when it is blank after trimming |
| Redacao.WordCount | src/components/Redacao.tsx:150 | the word count is the number of maximal non-whitespace runs, and zero exactly for a text that is blank after trimming |
| Redacao.EssayScreen.constructor | src/components/Redacao.tsx:25-27 | the screen starts with an empty text, the dissertation kind and the writing tab |
| Redacao.EssayScreen.Counts | src/components/Redacao.tsx:150 | the counts under the box are the text's length and its number of runs, the latter zero exactly for a blank text |
| Redacao.EssayScreen.Edit | src/components/Redacao.tsx:25 | typing replaces the text and changes nothing else |
| Redacao.EssayScreen.HandleAnalise | src/components/Redacao.tsx:33-45 | analysis is requested exactly for a non-blank text, then the analysis tab is shown; a blank text gets the "Texto necessário" toast and nothing changes |
| Redacao.EssayScreen.HandleBuscarDicas | src/components/Redacao.tsx:47-50 | fetching tips shows the tips tab and keeps the text, the kind and the analysis |
| Redacao.EssayScreen.NovaAnalise | src/components/Redacao.tsx:314-317 | "Nova Análise" drops the analysis and returns to the writing tab, keeping the text and the kind |
| Redacao.EssayScreen.SelectTab | src/components/Redacao.tsx:95 | a tab trigger or "Voltar para Escrita" shows exactly that tab and keeps the text, the kind and the analysis |
| Redacao.EssayScreen.SelectTipo | src/components/Redacao.tsx:124-128 | clicking a kind card selects exactly that kind and changes nothing else |
| Redacao.EssayScreen.HandleBack | src/components/Redacao.tsx:29-31 | Back clears the current function |
| Redacao.AnalyseDisabledIffNoWords | src/components/Redacao.tsx:163 | the Analyse button is disabled exactly while loading or while the text has no word |
| AuthContext.NormaliseProfileType | src/context/AuthContext.tsx:64-67 | a kept profile type is one of the four names, stored exactly as that name |
| AuthContext.NormaliseRoundTrip | src/context/AuthContext.tsx:65-67 | each of the four names is kept as its own profile, and a stored value is dropped exactly when it is none of them |
| AuthContext.BeforeFirstAt | src/context/AuthContext.tsx:90 | `split('@')[0]` is the longest prefix without '@': it stops at the first '@' or the end |
| AuthContext.BeforeFirstAtUnique | src/context/AuthContext.tsx:90 | any prefix without '@' that ends the string or stops at an '@' is that same part |
| AuthContext.FallbackName | src/context/AuthContext.tsx:90 | the fallback name is never empty, and is either "Usuário" or the e-mail's part before '@' |
| AuthContext.FallbackNameCases | src/context/AuthContext.tsx:90 | the name is the local part whenever the e-mail starts with something other than '@', and "Usuário" when the e-mail is absent, empty or starts with '@' |
| AuthContext.FallbackNameOfAddress | src/context/AuthContext.tsx:90 | "ana@example.com" is shown as "ana" |
| AuthContext.FetchedProfile | src/context/AuthContext.tsx:45-96 | no row sets nothing; a fetched row sets a profile with the row's id, name and e-mail, keeping the stored type exactly when it is one of the four names, as stored; after a failed fetch a profile with the user's id and the user's e-mail (or "") is set, copying the metadata's name and type when there is metadata, and otherwise named by the fallback name of the e-mail, with no type |
| AuthContext.FetchedProfileShape | src/context/AuthContext.tsx:45-96 | consequences for the rest of the app: a profile read from the tables carries one of the four types or none, and the basic fallback always has a non-empty name and no type |
| AuthContext.MetadataTypeIsUnchecked | src/context/AuthContext.tsx:79-85 | the metadata fallback copies the stored type unchecked, so a profile can carry "admin" |
| AuthContext.SignUpResult | src/context/AuthContext.tsx:148-177 | sign-up always returns; it has no error exactly when the backend returned none, passes a returned error through, and turns a thrown one into the fixed message |
| AuthContext.SignInResult | src/context/AuthContext.tsx:179-186 | unlike sign-up, an exception of the backend call reaches the caller, and a returned error is passed on unchanged |
| AuthContext.UseAuth | src/context/AuthContext.tsx:26-32 | outside a provider the hook fails with its fixed message; inside it gives the context back |
| AuthContext.AuthState.constructor | src/context/AuthContext.tsx:39-42 | no user, session or profile, and loading |
| AuthContext.AuthState.OnAuthStateChange | src/context/AuthContext.tsx:102-122 | an unmounted provider ignores the event; otherwise session and user follow it, a user-less event clears the profile, a user's id is scheduled for a profile fetch, and loading ends |
| AuthContext.AuthState.OnInitialSession | src/context/AuthContext.tsx:125-140 | the stored session is applied like an event, except that a missing user leaves the profile as it was |
| AuthContext.AuthState.FetchProfile | src/context/AuthContext.tsx:111-115 | the deferred fetch sets the fetched profile only while mounted and only when the fetch produced one |
| AuthContext.AuthState.SignOut | src/context/AuthContext.tsx:188-191 | once the remote sign-out returns, whatever error it reports, the profile is cleared; when it throws, the exception reaches the caller and the profile is kept; nothing else changes |
| AuthContext.SignOutThenEvent | src/context/AuthContext.tsx:102-191 | sign-out followed by the backend's user-less event leaves no user, session or profile, and loading over, even when the remote sign-out threw |
| AuthScreen.SignUpIssues | src/components/auth/AuthScreen.tsx:15-22 | at most four problems, and none exactly when the e-mail is valid, the password has 6 characters, the name 2, and one of the four profiles is chosen |
| AuthScreen.SignUpRules | src/components/auth/AuthScreen.tsx:15-22 | each sign-up problem is reported exactly when its rule is broken; the form passes exactly when the e-mail is valid, the password has 6 characters, the name 2, and the profile is one the context keeps |
| AuthScreen.SignInIssues | src/components/auth/AuthScreen.tsx:24-27 | at most two problems, and none exactly for a valid e-mail and a non-empty password |
| AuthScreen.SignInRules | src/components/auth/AuthScreen.tsx:24-27 | sign-in passes exactly for a valid e-mail and a non-empty password, and reports nothing else |
| AuthScreen.SignUpToastRulesMatchTests | src/components/auth/AuthScreen.tsx:55-73 | each rule of the toast table fires exactly on its branch's test |
| AuthScreen.SignUpToastByTable | src/components/auth/AuthScreen.tsx:55-85 | the error classification is the first firing rule of the table, and the generic failure when none fires |
| AuthScreen.LongerRegisteredTestSubsumed | src/components/auth/AuthScreen.tsx:55 | a message containing "User already registered" contains "already registered", so the second test never decides |
| AuthScreen.SignUpToast | src/components/auth/AuthScreen.tsx:52-91 | the success toast, the only non-destructive one, appears exactly when no error came back, and a message mentioning "already registered" gets the user-exists toast |
| AuthScreen.SignUpExceptionGivesGenericToast | src/components/auth/AuthScreen.tsx:79-98 | an exception in the context's sign-up reaches the screen as a message matching no keyword, so the user sees "Erro no cadastro", never the screen's own "Erro inesperado" |
| AuthScreen.SignInToast | src/components/auth/AuthScreen.tsx:109-123 | no toast exactly on success; every toast is destructive; a message mentioning "Invalid login credentials" gets the credentials toast, any other is shown raw |
| AuthScreen.AuthForm.constructor | src/components/auth/AuthScreen.tsx:33-34 | not busy and the password hidden |
| AuthScreen.AuthForm.ToggleShowPassword | src/components/auth/AuthScreen.tsx:217 | the eye button flips password visibility and nothing else |
| AuthScreen.AuthForm.BeginSubmit | src/components/auth/AuthScreen.tsx:48 | a handler starts by setting the busy flag |
| AuthScreen.AuthForm.FinishSignUp | src/components/auth/AuthScreen.tsx:52-101 | the sign-up handler ends not busy on every path, with the classified toast, or "Erro inesperado" when the call threw |
| AuthScreen.AuthForm.FinishSignIn | src/components/auth/AuthScreen.tsx:109-132 | the sign-in handler ends not busy on every path, with the sign-in toast, or "Erro inesperado" when the call threw |
| AuthScreen.AuthForm.SubmitSignUp | src/components/auth/AuthScreen.tsx:15-102 | a form with problems is not sent; a valid one ends not busy with the toast for what the context's sign-up returned |
| AuthScreen.AuthForm.SubmitSignIn | src/components/auth/AuthScreen.tsx:24-133 | a form with problems is not sent; a valid one ends not busy with the sign-in toast, or "Erro inesperado" when the call threw |
| ConfirmacaoAnalise.BandOf | src/components/PlanoEstudo/ConfirmacaoAnalise.tsx:22-32 | the high band exactly from 80 up, the low band exactly below 60 |
| ConfirmacaoAnalise.ConfidenceColor | src/components/PlanoEstudo/ConfirmacaoAnalise.tsx:22-26 | the badge colour is the colour of the confidence's band |
| ConfirmacaoAnalise.ConfidenceIcon | src/components/PlanoEstudo/ConfirmacaoAnalise.tsx:28-32 | the icon's text colour is the colour of the band; the check is drawn exactly for the high band and the cross exactly for the low one |
| ConfirmacaoAnalise.ColorAndIconAgree | src/components/PlanoEstudo/ConfirmacaoAnalise.tsx:22-32 | badge colour and icon always show the same band, each band holding on its half-open interval with 80 and 60 in the upper one |
| ConfirmacaoAnalise.BandMonotone | src/components/PlanoEstudo/ConfirmacaoAnalise.tsx:23-24 | a higher confidence never shows a worse band |
| ConfirmacaoAnalise.FileIconFor | src/components/PlanoEstudo/ConfirmacaoAnalise.tsx:39-43 | the document icon is drawn exactly for "application/pdf", the picture otherwise |
| ConfirmacaoAnalise.RenderButtons | src/components/PlanoEstudo/ConfirmacaoAnalise.tsx:113-129 | both buttons are disabled exactly while loading, and the confirm label reads "Gerando plano..." exactly then |
| ConfirmacaoAnalise.Click | src/components/PlanoEstudo/ConfirmacaoAnalise.tsx:115-124 | a click reaches its callback exactly when not loading |
| Chat.Sendable | src/components/AssistenteIAChat.tsx:53 | an input gets past the blank guard exactly when it holds a character that is not whitespace |
| Chat.Conversation | src/components/AssistenteIAChat.tsx:13-83 | a conversation always has odd length: the opening message plus pairs; what the messages hold is stated by ConversationKeepsSentInputs and ConversationAlternates |
| Chat.ConversationKeepsSentInputs | src/components/AssistenteIAChat.tsx:53-64 | the person's messages are exactly the inputs the blank guard let through, in the order sent |
| Chat.ConversationAlternates | src/components/AssistenteIAChat.tsx:63-81 | the opening message comes first, then the person and the assistant alternate, every answer being the reply |
| Chat.Transcript | src/components/AssistenteIAChat.tsx:13-83 | the window shows the greeting, then each sent input followed by the fixed reply: odd length, the person's messages exactly the inputs the guard let through, every answer the reply |
| Chat.ChatState.constructor | src/components/AssistenteIAChat.tsx:12-23 | the list starts as the one greeting, with empty input and no typing |
| Chat.ChatState.SetInput | src/components/AssistenteIAChat.tsx:178 | typing replaces the input and nothing else |
| Chat.ChatState.Send | src/components/AssistenteIAChat.tsx:52-64 | a blank input changes nothing; otherwise exactly one person message is appended after the earlier ones and the input is cleared |
| Chat.ChatState.TypeMessage | src/components/AssistenteIAChat.tsx:35-50 | the typing text grows one character per tick and ends as the whole content, typing over, messages untouched |
| Chat.ChatState.Answer | src/components/AssistenteIAChat.tsx:67-82 | the timed reply appends one assistant message with the fixed reply and clears the typing text |
| Chat.Converse | src/components/AssistenteIAChat.tsx:52-83 | entering and sending each input in turn, each reply finishing first, leaves the window showing exactly the transcript |
| Chat.Render | src/components/AssistenteIAChat.tsx:85 | a closed window renders nothing |
| Chat.SendEnabledIff | src/components/AssistenteIAChat.tsx:182-186 | the send button is live exactly when no reply is being typed and the input has a non-whitespace character |

## Left out

- Backend calls (the catalog table, profiles, settings, sign-up, sign-in, sign-out): their results are parameters (`record`, `FetchOutcome`, `Call`, `produced`). Their retries, latency and the catalog lookup `findFunction` of the functions hook are not modelled.
- Timers and clocks: `setTimeout`/`setInterval` become explicit steps. Message ids and timestamps from `Date.now()` are dropped.
- Chat.Converse: assumes each reply completes before the next input is sent. Overlapping replies after two quick sends, and a send while typing, are not modelled.
- Chat.ChatState.TypeMessage: steps by Unicode scalar value, whereas `content[index]` steps by UTF-16 unit and splits the emoji of the reply into surrogate halves mid-typing.
- Redacao.EssayScreen.Counts: the character count is the number of Unicode scalar values, whereas `texto.length` (src/components/Redacao.tsx:150) counts UTF-16 units, so a text with characters outside the Basic Multilingual Plane (emoji) shows a larger count in the app.
- AuthScreen.SignUpIssues: the password and name minimum lengths (src/components/auth/AuthScreen.tsx:17-18) are checked on Unicode scalar values, whereas the schema library counts UTF-16 units, so a short password made of emoji can pass the app's check and fail the model's.
- Chat.ChatState.TypeMessage: assumes the updater `prev => prev + content[index]` (src/components/AssistenteIAChat.tsx:42) reads `index` in the tick that queued it. React may run a queued updater later, after `index++` on the next line; the bubble would then skip a character and end with "undefined" before it is cleared at line 80. The final message list does not depend on this.
- Text.Lower: covers A–Z and the Latin-1 capitals only, not JavaScript's full Unicode lower-casing.
- Redacao.GetNota: takes the grade already parsed. `parseFloat` itself is not modelled; its NaN is `None`, which like NaN fails every comparison.
- ConfirmacaoAnalise.BandOf: confidence is a mathematical real; NaN and floating-point rounding are not modelled.
- AuthScreen.SignUpIssues: the e-mail format check of the schema library is a parameter, and the library's own wording for an unknown profile value is not modelled.
- AuthContext.FetchedProfile: the `user` the handler's closure holds is a parameter, since which render's value it sees depends on React scheduling.
- AuthContext.AuthState.OnAuthStateChange: the component's `mounted` flag is a parameter; the subscription and its cleanup are not modelled.
- CategoryDialog.FunctionDescription: the lookup is over a map, so inherited object keys such as "constructor", which a JavaScript object literal would answer, are not modelled.
- FeaturesGrid.GroupFunctionsByCategory: the grouped object becomes a sequence in configuration order, the order `Object.entries` yields for these string keys.
- The FeaturesGrid fetch of the library link and `handleBibliotecaHabilidades`: only I/O and a forwarding call.
- The sign-in/sign-up tab of the auth screen, the analysis hook of the essay screen, device detection, `localStorage`, toasts as rendered, icons, styling and animation.
