# TechStock admission, approval and inventory rules in Dafny

This project models the decision rules of TechStock, a multi-tenant inventory
front-end built on a hosted Postgres backend. The rules are:

- the shell's admission gate, which picks exactly one screen for a visitor;
- the approve-organization edge function that moves an organisation from
  `PENDIENTE` to `APROBADA` or `RECHAZADA`;
- the super-admin hook and panel;
- organisation creation: slug generation and sanitising, the validation order,
  and the two-step insert with its compensating delete;
- the onboarding wizard and the business-template table;
- the pending-approval screen's realtime reaction;
- the list, filter, classification and display helpers of the product,
  demo-catalogue, product-detail and stock-movement screens, and the top bar's
  avatar initials.

Everything is modelled as immutable datatypes and pure functions. The backend
(auth, tables, RPCs, realtime transport) is replaced by an abstract store
(`Store`) or by the outcomes it reports, passed in as parameters. Clocks are a
`Timestamp` parameter. Timers and page reloads are recorded as the effect a
reaction asks for.

One module per source component:

| module | models |
|---|---|
| `Wrappers`, `Text`, `Seqs`, `Numbers` | `Option`/`Result`; JavaScript string operations (`trim`, case mapping, `includes`, one-character `split` and `replace`, decimal spelling); `filter`, `findIndex`, `new Set` de-duplication; `parseInt` |
| `Store` | the `organizaciones`, `miembros` and `solicitudes_registro` tables |
| `Realtime` | subscribe/cleanup pairing of a React effect that opens one channel |
| `Gate` | App.tsx `checkOnboardingStatus`, the render cascade, the two callbacks |
| `Approval` | supabase/functions/approve-organization/index.ts |
| `AdminHook`, `AdminPanel` | hooks/useAdmin.ts, components/AdminPanel.tsx |
| `Validations`, `Slugs`, `Organization` | lib/validations/index.ts, the slug transforms and `handleSubmit` of components/OrganizationSelector.tsx |
| `Templates`, `Onboarding` | constants/businessTemplates.ts, components/OnboardingWizard.tsx |
| `Pending` | components/PendingApproval.tsx |
| `Inventory`, `InventoryDemo`, `ProductDetail` | components/InventoryList.tsx, InventoryDemo.tsx, ProductDetailView.tsx |
| `Movimientos` | components/MovimientosList.tsx |
| `Header` | `getUserInitials` of components/Header.tsx |

Where the code and its surrounding description disagree, the model follows the
code. Examples:

- completing onboarding sets `isPending` (App.tsx:149), so the shell shows the
  pending screen rather than the main app;
- `generateSlug` is not idempotent in general;
- the text and SKU schemas check their length bounds before trimming.

## Model

| member | source | states |
|---|---|---|
| Numbers.ParseInt | components/InventoryList.tsx:247 | `parseInt` without radix: NaN (`None`) when nothing but whitespace is left; a negative result comes only from a leading `-` |
| Numbers.ParseIntOrZero | components/InventoryList.tsx:247 | `parseInt(s) \|\| 0` is the parsed value, or 0 for NaN |
| Numbers.ParseIntRoundTrip | components/InventoryList.tsx:247 | the decimal spelling of any integer, followed by text that does not continue the number, parses back to that integer |
| Numbers.NoDigitIsNaN | components/MovimientosList.tsx:145 | text with no digit after whitespace and sign parses to NaN, and `\|\| 0` turns it into 0 |
| Text.BlankIffAllSpace | hooks/useAdmin.ts:101 | `!s \|\| s.trim() === ''` holds exactly when every character is JavaScript whitespace |
| Text.ReplaceFirstSpec | components/MovimientosList.tsx:310 | `replace` with a one-character pattern changes only the first occurrence and keeps the length |
| Text.Split | components/Header.tsx:54 | `split(' ')` yields at least one piece and no piece contains the separator |
| Text.SplitThenJoin | components/Header.tsx:54 | joining the pieces of `split(sep)` with `sep` gives back the original string, so no character is lost or moved |
| Text.JoinThenSplit | components/Header.tsx:54 | splitting the join of pieces that hold no separator gives back exactly those pieces |
| Store.InsertOrg | components/OrganizationSelector.tsx:93-107 | the insert succeeds exactly when there is no fault, the id is fresh and the slug is unused, and then adds only that row |
| Store.InsertMember | components/OrganizationSelector.tsx:109-116 | the membership insert succeeds exactly when there is no fault, and then appends only that membership |
| Store.DeleteOrg | components/OrganizationSelector.tsx:121 | a successful delete removes that organisation, keeps every other one and leaves the memberships alone |
| Store.InsertThenDelete | components/OrganizationSelector.tsx:93-121 | deleting a freshly inserted organisation gives back the database as it was |
| Store.MirrorRequests | supabase/functions/approve-organization/index.ts:123-129 | the registration requests of the decided organisation take the new state; all others are unchanged |
| Store.EstadoNameRoundTrip | supabase/functions/approve-organization/index.ts:86-100 | the three states' names parse back to the states, and nothing else parses to them |
| Realtime.RunsLeaveLatest | components/PendingApproval.tsx:31-67 | after any sequence of effect runs, each cleaning up the previous one, exactly the latest run's channel is live |
| Realtime.MountedAtMostOneUnmountedNone | components/PendingApproval.tsx:64-66 | while mounted at most one channel is live; after the final cleanup none is |
| Gate.JoinedOrgs | App.tsx:82 | the organisations are exactly the non-null joined rows, and none when the query returned no data |
| Gate.EffectiveEstado | App.tsx:103 | a missing or empty state reads as `PENDIENTE`; any other value is kept |
| Gate.CheckOnboarding | App.tsx:61-143 | a throw clears the two access flags: one while reading the user or the memberships changes nothing else, one while reading the configuration of an approved organisation (lines 122-127) also keeps the organisation id recorded before it; with no user nothing changes; the check never turns on both `isPending` and `needsOnboarding` |
| Gate.NoOrganization | App.tsx:85-99 | with no organisation, `needsOrganization` equals "email confirmed" and both other flags are false |
| Gate.OnlyFirstOrganization | App.tsx:102-103 | memberships after the first joined organisation do not influence the result |
| Gate.NotApprovedIsPending | App.tsx:112-117 | every state other than `APROBADA`, `RECHAZADA` included, gives pending and never onboarding |
| Gate.MissingEstadoIsPending | App.tsx:103 | a null or empty state is read as `PENDIENTE`, and `RECHAZADA` is not approved |
| Gate.ApprovedRoutesOnConfig | App.tsx:122-136 | an approved organisation needs onboarding exactly when its configuration row has `tipo_negocio` `RETAIL_GENERAL`; with no row it goes to the main app |
| Gate.Render | App.tsx:157-239 | onboarding is shown only with a recorded organisation id; the main app only to a signed-in non-admin who is neither pending nor missing an organisation |
| Gate.RenderApplies | App.tsx:157-239 | the rendered screen's own condition holds and no earlier screen's condition does |
| Gate.RenderIsFirstApplicable | App.tsx:157-239 | the rendered screen is the first in the priority list loading, login, admin panel, verify e-mail, create organisation, pending, onboarding, main app whose condition holds |
| Gate.RenderIffFirst | App.tsx:157-239 | a screen is rendered iff its own condition holds and no earlier screen's does |
| Gate.SuperAdminWins | App.tsx:177-179 | a signed-in, loaded super-admin sees the admin panel whatever the organisation flags |
| Gate.VerifyEmailOnlyWithoutOrganization | App.tsx:182 | the verify-email screen appears iff the e-mail is unconfirmed and no organisation id is recorded |
| Gate.OnboardingComplete | App.tsx:145-150 | completing onboarding clears `needsOnboarding`, sets `isPending` and keeps the rest |
| Gate.OnboardingCompleteShowsPending | App.tsx:145-150 | from the onboarding screen, the completion callback leads to the pending screen |
| Gate.AfterOrganizationCreated | App.tsx:214-218 | after the creation callback and its re-check, `needsOrganization` is off whenever an organisation is found |
| Gate.NewOrganizationIsPending | App.tsx:214-218 | a freshly created `PENDIENTE` organisation leads to the pending screen |
| Gate.ConfigThrowFailsOpen | App.tsx:122-142 | a throw at the configuration read of an approved organisation opens the main app with that organisation recorded |
| Gate.ThrowFailsOpen | App.tsx:138-142 | an exception while reading memberships lets a confirmed user into the main app |
| Approval.AdminSecret | supabase/functions/approve-organization/index.ts:9 | the token is the configured secret when set and non-empty, and the built-in default `change-this-secret-token` when unset or empty; never empty |
| Approval.UnsetSecretAcceptsDefault | supabase/functions/approve-organization/index.ts:9 | without a configured secret, or with an empty one, a non-preflight request gets 401 exactly when its token is not the built-in `change-this-secret-token` (the check of lines 29-37) |
| Approval.NuevoEstado | supabase/functions/approve-organization/index.ts:100 | `approve` leads to `APROBADA`, `reject` to `RECHAZADA`; never back to `PENDIENTE` |
| Approval.Decide | supabase/functions/approve-organization/index.ts:102-109 | the update sets the new state and `updated_at`, stamps `fecha_aprobacion` only on approval, and keeps name and slug |
| Approval.Handle | supabase/functions/approve-organization/index.ts:11-221 | the store changes only on a 200 confirmation, which requires an existing `PENDIENTE` organisation; memberships are never touched |
| Approval.PreflightFirst | supabase/functions/approve-organization/index.ts:13-21 | `OPTIONS` is answered `ok` before any check and changes nothing |
| Approval.GuardOrder | supabase/functions/approve-organization/index.ts:30-58 | token mismatch gives 401 first, then a missing parameter 400, then an unknown action 400, then a lookup |
| Approval.AlreadyDecided | supabase/functions/approve-organization/index.ts:86-97 | a non-`PENDIENTE` organisation gives 400 with its current state, and nothing changes |
| Approval.AlreadyApprovedMessage | supabase/functions/approve-organization/index.ts:89 | the refusal names the state in lower case: `La organización ya está aprobada` |
| Approval.SuccessfulDecision | supabase/functions/approve-organization/index.ts:100-129 | a 200 changes exactly the one organisation to the action's state and mirrors that state into its registration requests |
| Approval.DecisionIffValid | supabase/functions/approve-organization/index.ts:29-129 | a non-preflight request is answered 200 exactly when the token matches, both parameters are given with a known action, the organisation is found `PENDIENTE` and the update succeeds |
| Approval.ValidDecisionSucceeds | supabase/functions/approve-organization/index.ts:100-129 | such a request gets the confirmation page, stores the decided row, keeps the memberships and mirrors the new state into the registration requests unless that write failed |
| Approval.UpdateFailure | supabase/functions/approve-organization/index.ts:111-120 | a failed update answers 500 with the backend's message and changes nothing |
| Approval.HandleIsLegal | supabase/functions/approve-organization/index.ts:86-109 | every call moves states only from `PENDIENTE` to a decision and keeps "approval date iff approved" |
| Approval.DecisionsAreFinal | supabase/functions/approve-organization/index.ts:86-109 | over any sequence of calls a decided organisation keeps its decision |
| AdminHook.CheckAdminStatus | hooks/useAdmin.ts:40-55 | `isAdmin` holds iff the RPC answered without error and with a truthy value |
| AdminHook.Load | hooks/useAdmin.ts:58-76 | a failure keeps the list and records the message or the default; a success replaces the list (null as empty) and clears the error; loading ends false either way |
| AdminHook.NotasParam | hooks/useAdmin.ts:83 | absent or empty notes are sent as null, others unchanged |
| AdminHook.Aprobar | hooks/useAdmin.ts:79-96 | one RPC with the normalised notes; success reloads the list; an RPC error is rethrown with its message or the default |
| AdminHook.Rechazar | hooks/useAdmin.ts:99-120 | a blank reason throws before any RPC; otherwise one RPC; success reloads; an RPC error leaves the state and is rethrown with its message or `Error al rechazar organización` |
| AdminHook.RechazarNeverSendsBlank | hooks/useAdmin.ts:101-103 | no reject RPC carries a blank reason; an all-whitespace reason sends nothing |
| AdminHook.AdminChannelFor | hooks/useAdmin.ts:131-136 | the effect opens `admin-solicitudes` exactly while the user is an admin |
| AdminHook.AdminChannelLifecycle | hooks/useAdmin.ts:130-155 | the admin channel is live iff the latest flag is true, and none after unmount |
| AdminHook.MountAsWritten | hooks/useAdmin.ts:33 | as written, after mounting the hook is still loading exactly when the user is not an admin |
| AdminHook.NonAdminStuckLoading | App.tsx:157 | as written, a non-admin visitor is held on the loading screen for good |
| AdminHook.Mount | hooks/useAdmin.ts:122-155 | corrected: loading is over once the admin check has answered; an admin's list is the loaded one |
| AdminHook.MountSettles | App.tsx:157-179 | with the corrected hook the shell leaves the loading screen: login without a session, the panel for an admin |
| AdminPanel.Filtradas | components/AdminPanel.tsx:21-39 | the filtered list is an order-preserving subsequence holding exactly the rows that pass the state filter and the search |
| AdminPanel.StateFilterExact | components/AdminPanel.tsx:23-25 | a state filter keeps only rows in exactly that state |
| AdminPanel.NoFilterKeepsAll | components/AdminPanel.tsx:21-39 | with `TODAS` and an empty search every row is kept, in order |
| AdminPanel.SearchIsCaseInsensitive | components/AdminPanel.tsx:28-35 | the search ignores its own case; rows without e-mail and name match only by name or slug |
| AdminPanel.ComputeStats | components/AdminPanel.tsx:42-47 | `total` is the list length, and `pendientes`, `aprobadas` and `rechazadas` are each the number of rows whose state is exactly `PENDIENTE`, `APROBADA` or `RECHAZADA` |
| AdminPanel.CountInState | components/AdminPanel.tsx:43-45 | filtering the rows to one state keeps as many rows as that state's name occurs in the state column |
| AdminPanel.StatsAddUp | components/AdminPanel.tsx:42-47 | the three counters add up to the total when every row has one of the three declared states |
| AdminPanel.StatsCountMatchingRows | components/AdminPanel.tsx:43-45 | each of the three counters equals the length of the list the panel shows for that state filter with no search |
| AdminPanel.AvailableActions | components/AdminPanel.tsx:303 | approve and reject are offered iff the row is `PENDIENTE` |
| AdminPanel.OpenAction | components/AdminPanel.tsx:303-315 | an action click opens the modal only for a row that offers it and is not being processed (`disabled={procesando === sol.organizacion_id}`); otherwise nothing changes |
| AdminPanel.Cancel | components/AdminPanel.tsx:507-511 | cancel closes the modal and clears notes and reason |
| AdminPanel.HandleAprobar | components/AdminPanel.tsx:49-62 | success closes the modal and clears the notes; failure keeps both and alerts; processing ends either way |
| AdminPanel.HandleRechazar | components/AdminPanel.tsx:64-80 | a blank reason only alerts; otherwise one reject RPC, and success closes the modal and clears the reason |
| AdminPanel.BlankReasonNeverSent | components/AdminPanel.tsx:65-68 | a blank reason disables confirm and sends nothing; empty notes reach the approve RPC as null |
| AdminPanel.ModalOnlyForPending | components/AdminPanel.tsx:303 | over any sequence of clicks, the action modal only ever holds a `PENDIENTE` row |
| Validations.LengthMessagesDistinct | lib/validations/index.ts:15-16 | the minimum and maximum messages never coincide, whatever the bounds, and the bound reads back out of the minimum message |
| Validations.MinLengthThree | lib/validations/index.ts:46-47 | the slug schema's messages are `Mínimo 3 caracteres` and `Máximo 50 caracteres` |
| Validations.SlugPatternIffShaped | lib/validations/index.ts:48 | the slug regex holds iff the string is non-empty, uses only `[a-z0-9-]`, and has no leading, trailing or doubled hyphen |
| Validations.SlugIssues | lib/validations/index.ts:44-52 | the slug schema reports nothing iff its JavaScript length (UTF-16 units) is 3..50 and the regex matches, naming each failed check; for a slug the regex accepts that length is the character count |
| Validations.SlugSchemaValueOfAccepted | lib/validations/index.ts:51-52 | for an accepted slug the trailing lower-case and trim change nothing |
| Validations.PasswordIssues | lib/validations/index.ts:37-39 | a password is accepted iff it has at least 6 UTF-16 units, else `Mínimo 6 caracteres`; 6 characters always pass, fewer than 3 never do, and for BMP-only text units and characters agree |
| Validations.AstralPasswordAccepted | lib/validations/index.ts:38 | three emoji, three characters but six UTF-16 units, pass the 6-character minimum |
| Validations.SkuIssues | lib/validations/index.ts:57-60 | an SKU is accepted iff its UTF-16 length is 2..50, each failure with its message; an empty SKU is too short and one over 50 characters too long |
| Validations.SkuCheckedBeforeTrim | lib/validations/index.ts:57-62 | a two-space SKU passes and is handed on empty |
| Validations.QuantityIssues | lib/validations/index.ts:76-80 | a quantity is accepted iff it is an integer from 0 to 2^53 - 1, so zero passes; a negative one gets the non-negative message, and below -(2^53 - 1) also the safe-integer minimum message; above 2^53 - 1 the maximum message |
| Validations.TextSchemaBounds | lib/validations/index.ts:94-110 | text bounds default to 1..255 UTF-16 units and are checked before trimming, so `' '` passes and is handed on empty; optional text accepts absence, `''` or at most 500 units |
| Slugs.StripAccents | components/OrganizationSelector.tsx:23-24 | NFD plus removal of U+0300..U+036F leaves no combining mark |
| Slugs.GenerateSlug | components/OrganizationSelector.tsx:20-28 | the output uses only `[a-z0-9-]`, has no doubled or leading hyphen, and is at most 50 characters |
| Slugs.GenerateSlugIdempotentIff | components/OrganizationSelector.tsx:26-27 | `generateSlug` is idempotent on an output iff that output does not end in `-` |
| Slugs.GenerateSlugCanEndInHyphen | components/OrganizationSelector.tsx:27 | the 50-character cut after the hyphen trim can leave a trailing `-` |
| Slugs.GenerateSlugExample | components/OrganizationSelector.tsx:20-28 | `Mi Tienda`, and any name that lower-cases to `mi tienda`, becomes `mi-tienda` |
| Slugs.GenerateSlugTwoWords | components/OrganizationSelector.tsx:25 | two lower-case words become the words joined by one hyphen |
| Slugs.GenerateSlugMatchesPattern | lib/validations/index.ts:48 | a non-empty generated slug without a trailing hyphen satisfies the slug regex |
| Slugs.SanitizeSlug | components/OrganizationSelector.tsx:39-48 | the sanitised slug uses only `[a-z0-9-]` and has no leading, trailing or doubled hyphen |
| Slugs.SanitizeKeepsValidSlug | components/OrganizationSelector.tsx:39-48 | a slug that already matches the slug regex is stored unchanged |
| Slugs.SanitizeKeepsAlnums | components/OrganizationSelector.tsx:42-46 | the sanitised slug keeps exactly the lower-cased `[a-z0-9]` characters typed, in order; only other characters and surplus hyphens go |
| Slugs.SanitizeSlugIdempotent | components/OrganizationSelector.tsx:42-46 | sanitising twice is sanitising once |
| Slugs.SanitizedSlugMatchesPattern | lib/validations/index.ts:48 | a non-empty sanitised slug of at most 50 characters satisfies the regex, and the schema when it has at least 3 |
| Slugs.SanitizeSlugExample | components/OrganizationSelector.tsx:44 | `A b` sanitises to `ab`: spaces are dropped, not hyphenated |
| Organization.NombreChange | components/OrganizationSelector.tsx:30-37 | the slug follows the new name iff it was empty or equal to the slug of the previous name |
| Organization.SlugChange | components/OrganizationSelector.tsx:39-48 | the slug field holds a sanitised value |
| Organization.SlugFollowsName | components/OrganizationSelector.tsx:33-36 | while only the name is typed, the slug stays the generated slug of the name |
| Organization.EmptyFormFollowsName | components/OrganizationSelector.tsx:30-37 | starting from the empty form, typing only the name keeps the slug equal to the generated slug of the name |
| Organization.CustomSlugSticks | components/OrganizationSelector.tsx:34 | a slug of the user's own survives name edits that do not generate it |
| Organization.CheckForm | components/OrganizationSelector.tsx:57-68 | the form passes iff name and slug are not blank and the slug has at least 3 UTF-16 units; a shorter slug gets `SlugMuyCorto` once both blank checks pass |
| Organization.NewOrg | components/OrganizationSelector.tsx:95-99 | the inserted organisation is `PENDIENTE` with no approval date |
| Organization.Submit | components/OrganizationSelector.tsx:50-138 | success requires a confirmed user, valid fields and an unused slug; every failure carries a message |
| Organization.SubmitSucceedsIff | components/OrganizationSelector.tsx:50-123 | a submission returns the new id exactly when the form checks pass, a confirmed user is signed in, neither the slug as typed (line 85) nor the trimmed slug stored (line 97) is in use, the id is fresh and neither insert fails |
| Organization.SubmitAllOrNothing | components/OrganizationSelector.tsx:109-123 | a failed submit leaves the store as before except when the membership insert and the compensating delete both fail: the delete's error is ignored, so the new organisation stays behind without members while the permissions error is shown |
| Organization.SubmitRejections | components/OrganizationSelector.tsx:57-90 | the checks fail in order: form, no user, unconfirmed e-mail, slug in use, each before any write |
| Organization.FormSlugPassesSchema | lib/validations/index.ts:44-52 | a slug the form produced itself is never blank and, with 3..50 characters and no trailing hyphen, passes the slug schema |
| Organization.SubmitSuccessStoresPending | components/OrganizationSelector.tsx:93-116 | success stores the trimmed name and slug as `PENDIENTE` with an `ADMIN` membership for the user |
| Templates.BusinessTemplate | constants/businessTemplates.ts:1-157 | each template's id and `tipo_negocio` equal its key; mermas and inventory value on, approval off; units start with `UNIDADES`; only `OTRO` has no suggested categories |
| Templates.AllTemplates | constants/businessTemplates.ts:165-167 | six templates, the i-th being the template of the i-th key in table order |
| Templates.KeyInjective | constants/businessTemplates.ts:1-157 | different templates have different keys |
| Templates.ParseKeyRoundTrip | constants/businessTemplates.ts:159 | every key string reads back as its template id, and no other string does |
| Templates.GetTemplateById | constants/businessTemplates.ts:161-163 | the lookup returns the template whose key is the given id, and only such a template |
| Templates.AllTemplatesListEachOnce | constants/businessTemplates.ts:165-167 | every template is listed exactly once |
| Templates.AllTemplatesOrder | constants/businessTemplates.ts:1-157 | the order is PANADERIA, FERRETERIA, TIENDA_VINILOS, ABARROTES, RESTAURANTE, OTRO |
| Templates.NoTemplateIsRetailGeneral | constants/businessTemplates.ts:1-157 | no template has `tipo_negocio` `RETAIL_GENERAL`, and there is no template under that key |
| Templates.PanaderiaDetails | constants/businessTemplates.ts:2-27 | PANADERIA's feature flags and its six suggested categories from Pan to Materias Primas |
| Onboarding.CurrentTemplate | components/OnboardingWizard.tsx:19 | the shown template exists iff one was picked, and it is the picked one |
| Onboarding.Select | components/OnboardingWizard.tsx:90 | clicking a card makes its template current and changes nothing else |
| Onboarding.ContinueAsWritten | components/OnboardingWizard.tsx:111 | as written, Continue moves to step 2 whatever is selected |
| Onboarding.ContinueWithoutTemplate | components/OnboardingWizard.tsx:13 | as written, Continue from the initial state reaches step 2 with no template to show |
| Onboarding.Continue | components/OnboardingWizard.tsx:111 | corrected: Continue moves to step 2 only with a template selected |
| Onboarding.RunKeepsConfirmable | components/OnboardingWizard.tsx:111-131 | corrected: over any event sequence, step 2 always has a template to show |
| Onboarding.Back | components/OnboardingWizard.tsx:223-224 | Back returns to step 1 keeping the selection, and does nothing while loading |
| Onboarding.ContinueThenBack | components/OnboardingWizard.tsx:111-223 | Continue then Back returns to step 1 with the same selection, and Continue again lands where it did |
| Onboarding.CategoryRows | components/OnboardingWizard.tsx:38-41 | one row per suggested name, in order, tagged with the organisation |
| Onboarding.UpdateConfig | components/OnboardingWizard.tsx:29-32 | only this organisation's configuration row changes, and no row is created |
| Onboarding.Complete | components/OnboardingWizard.tsx:21-57 | an update error stops with its message and calls nothing; otherwise the configuration is written, categories are inserted unless that fails, and `onComplete` runs once; loading ends false |
| Onboarding.CompleteTouchesOnlyThisOrganization | components/OnboardingWizard.tsx:26-45 | other organisations' configuration is unchanged and every new category belongs to this one, in template order |
| Onboarding.NoCategoriesWithoutSuggestions | components/OnboardingWizard.tsx:37-47 | `OTRO`, or a failing category insert, adds no category |
| Onboarding.CompletionClearsTrigger | App.tsx:128 | after completion the configuration no longer triggers onboarding, while the callback shows the pending screen |
| Pending.AcquireOrgId | components/PendingApproval.tsx:13-26 | the id is the first membership's organisation, and none without a user or membership |
| Pending.ChannelFor | components/PendingApproval.tsx:31-36 | no channel while the id is null or empty, else `org-` followed by the id |
| Pending.ChannelForInjective | components/PendingApproval.tsx:36 | different organisations listen on different channels |
| Pending.React | components/PendingApproval.tsx:45-60 | `APROBADA` shows the approval and asks for a reload after 2000 ms; `RECHAZADA` reloads at once; anything else changes nothing |
| Pending.Deliver | components/PendingApproval.tsx:31-44 | with no channel no notification has any effect |
| Pending.OnlyOwnDecisionMatters | components/PendingApproval.tsx:39-44 | notifications about other organisations or other events change nothing |
| Pending.ApprovalSticks | components/PendingApproval.tsx:48-50 | once approval is shown, later notifications cannot hide it |
| Pending.ChannelLifecycle | components/PendingApproval.tsx:31-67 | exactly the current id's channel is live, at most one, and none after unmount |
| Pending.Logout | components/PendingApproval.tsx:69-79 | a sign-out that throws resets `loggingOut`; one that succeeds reloads |
| Inventory.StockStatus | components/InventoryList.tsx:280-284 | `Sin Stock` iff stock is 0, `Stock Bajo` iff non-zero and at most the minimum, `Normal` otherwise |
| Inventory.StockStatusMonotone | components/InventoryList.tsx:280-284 | over non-negative stock, more stock never gives a worse level |
| Inventory.NegativeStockIsLow | components/InventoryList.tsx:281-282 | negative stock is shown as low, never as out of stock |
| Inventory.FilteredProducts | components/InventoryList.tsx:289-294 | an order-preserving subsequence holding exactly the products that match search and category |
| Inventory.NoFilterKeepsAllProducts | components/InventoryList.tsx:289-294 | an empty search with `Todos` keeps every product in order |
| Inventory.SearchIgnoresCase | components/InventoryList.tsx:290-291 | the match does not depend on the case of the search |
| Inventory.CategoryOptions | components/InventoryList.tsx:286 | `Todos` first, then each category once and only categories that occur |
| Inventory.CategoriesInFirstAppearanceOrder | components/InventoryList.tsx:286 | the categories after `Todos` appear in the order of their first occurrence |
| Inventory.MapRow | components/InventoryList.tsx:107-117 | category falls back to `General`, minimum is 10, active iff stock > 0, a missing image gets the placeholder keyed by id |
| Inventory.MapRows | components/InventoryList.tsx:107 | null data gives no products; otherwise one mapped product per row |
| Inventory.MappedStatusAgreesWithBadge | components/InventoryList.tsx:107-117 | for non-negative stock, the inactive status set by the row mapping coincides with the `Sin Stock` badge of lines 280-284, and low means 1..10 units |
| Inventory.NewProductPayload | components/InventoryList.tsx:238-249 | the insert carries the form's fields, cost 0, stock `parseInt(stock) \|\| 0`, and null for an empty image |
| Inventory.NewProductStock | components/InventoryList.tsx:247 | a stock field holding a number's spelling stores that number; an empty one stores 0 |
| Inventory.SaveError | components/InventoryList.tsx:229-274 | code 23505 gives the duplicate-SKU message; other errors their own message or the default |
| Inventory.SaveErrorIdentifiesDuplicates | components/InventoryList.tsx:229-258 | unless the backend's own message is that wording, the duplicate-SKU message appears exactly for code 23505 |
| InventoryDemo.FilteredDemo | components/InventoryDemo.tsx:55-61 | an order-preserving subsequence holding exactly the demo products that match search and category |
| InventoryDemo.NoFilterShowsAllDemo | components/InventoryDemo.tsx:55-61 | no search and `Todos` show the whole catalogue |
| InventoryDemo.DemoFilterIsListFilter | components/InventoryDemo.tsx:55-61 | the demo filter is the product list's filter |
| InventoryDemo.DemoCategories | components/InventoryDemo.tsx:52 | `Todos`, then every demo category once and nothing else |
| InventoryDemo.DemoCategoriesInFirstAppearanceOrder | components/InventoryDemo.tsx:52 | the demo categories after `Todos` appear in the order the catalogue first mentions them |
| InventoryDemo.IndexById | components/InventoryDemo.tsx:75 | the first position with that id, or -1 when there is none |
| InventoryDemo.Navigate | components/InventoryDemo.tsx:72-83 | no-op without a selection or one outside the list, or at the ends; otherwise exactly one step |
| InventoryDemo.NavigateStaysInList | components/InventoryDemo.tsx:78-82 | navigating from a listed product stays in the list |
| InventoryDemo.NavigateInverse | components/InventoryDemo.tsx:78-82 | with distinct ids, next then previous (and previous then next) return to the start |
| InventoryDemo.ArrowsMatchNavigation | components/ProductDetailView.tsx:59-70 | the arrows are disabled exactly where navigation would not move |
| InventoryDemo.DemoIdsAreNumerals | components/InventoryDemo.tsx:16-41 | the demo ids are the numerals 1 to 24 in order |
| InventoryDemo.DemoProductsWellFormed | components/InventoryDemo.tsx:16-41 | 24 demo products with distinct ids |
| InventoryDemo.FilterKeepsIdsUnique | components/InventoryDemo.tsx:55-61 | filtering keeps ids distinct |
| InventoryDemo.DemoNavigationReversible | components/InventoryDemo.tsx:72-96 | on the demo screen, whatever the filter, a step and its reverse return to the same product |
| ProductDetail.Badge | components/ProductDetailView.tsx:39-41 | out of stock iff 0, low iff non-zero and at most 10, normal otherwise (the badge of lines 100-112) |
| ProductDetail.BadgeAgreesWithList | components/ProductDetailView.tsx:39-41 | the detail badge is the list's classification with the fixed minimum of 10 |
| ProductDetail.PositionLabel | components/ProductDetailView.tsx:58 | the label is the three words one-based position, `/` and total; `parseInt` of the label reads the position and the last word reads the total |
| ProductDetail.ScaleLabel | components/ProductDetailView.tsx:181 | the scale text is the four words stock, `/`, scale top and `unidades`, and the first reads back as the stock |
| ProductDetail.ScaleIsThirty | components/ProductDetailView.tsx:181 | the scale top is `minStock * 3` with the minimum of line 39, spelt `30` |
| Movimientos.CheckCantidadAsWritten | components/MovimientosList.tsx:145-148 | as written, only a parsed number at most 0 is refused; NaN passes |
| Movimientos.NaNQuantityPasses | components/MovimientosList.tsx:145-148 | as written, a quantity with no leading digit passes; the corrected check refuses it |
| Movimientos.CheckCantidad | components/MovimientosList.tsx:145-148 | corrected: a quantity passes iff it parses to a positive number, else `La cantidad debe ser mayor a 0` |
| Movimientos.ChecksAgreeOnNumbers | components/MovimientosList.tsx:146 | both checks agree on every quantity that parses |
| Movimientos.SubmitMovement | components/MovimientosList.tsx:126-182 | corrected: session, organisation, then quantity (refusing one that does not parse) are checked before any write; the insert carries the first organisation, the form's type, the quantity, null for empty notes and the user; success closes the modal and resets the form to `ENTRADA`; failure keeps both; the error stated is the one the save leaves, before the reload |
| Movimientos.TypedQuantityIsRecorded | components/MovimientosList.tsx:145-157 | a positive number typed as its spelling is inserted as that number |
| Movimientos.FilteredMovimientos | components/MovimientosList.tsx:206-208 | `TODOS` keeps everything; any other value keeps exactly the movements of that type, in order |
| Movimientos.FilterByAbsentType | components/MovimientosList.tsx:208 | a type no movement has gives an empty list |
| Movimientos.Sign | components/MovimientosList.tsx:315-320 | `+` iff the type is `ENTRADA` or `AJUSTE_POSITIVO`, `-` otherwise |
| Movimientos.SignOfOtherTypes | components/MovimientosList.tsx:319 | outgoing, negative-adjustment and transfer types show `-` |
| Movimientos.TipoLabel | components/MovimientosList.tsx:240 | the label has the type's length (the same label appears in the table at line 310) |
| Movimientos.LabelReplacesFirstUnderscore | components/MovimientosList.tsx:240 | only the first `_` becomes a space; a type without `_` is shown as is |
| Movimientos.TwoWordLabel | components/MovimientosList.tsx:310 | `A_B` with no `_` in `A` is shown `A B` |
| Movimientos.TipoBadge | components/MovimientosList.tsx:195-204 | grey iff the type is not one of the five known ones |
| Movimientos.KnownBadgesDistinct | components/MovimientosList.tsx:196-202 | the five known types get five different badges |
| Movimientos.MotivoText | components/MovimientosList.tsx:324 | a non-empty reason is shown as is; a missing or empty one as `-` |
| Movimientos.DashOnlyForMissingReason | components/MovimientosList.tsx:324 | `-` is shown iff the reason is missing, empty or itself `-`, so a recorded reason is never hidden |
| Header.TakeTwo | components/Header.tsx:58 | `slice(0, 2)`: a prefix of at most two characters |
| Header.Head | components/Header.tsx:55 | an empty word contributes nothing; a non-empty one its first character |
| Header.WordStarts | components/Header.tsx:52-58 | the first character of each run of non-spaces; never a space |
| Header.Initials | components/Header.tsx:51-61 | a non-empty name gives the upper-cased starts of its words, cut to 2; otherwise the result is never empty |
| Header.HeadsOfSplit | components/Header.tsx:53-56 | splitting on `' '` and joining the first characters equals taking the start of every word; empty pieces contribute nothing |
| Header.NameInitialsShape | components/Header.tsx:52-58 | the name path has at most 2 characters, the upper-cased word starts |
| Header.ExtraSpacesIgnored | components/Header.tsx:54-56 | doubled or leading spaces do not change the initials |
| Header.BlankNameHasNoInitials | components/Header.tsx:52-59 | a name of spaces only gives empty initials: the `U` fallback is on the e-mail path only |
| Header.EmailInitials | components/Header.tsx:60 | without a name, the first two e-mail characters upper-cased, or `U` with no profile or e-mail |

## Left out

- Rendering: JSX, CSS classes, icons, modals, `alert`/`confirm` and date formatting. Sidebar, KPICard, Charts, RecentMovements and Login are not part of this model.
- Backend access: auth, table reads and writes, RPCs and the realtime transport are replaced by inputs (the outcomes they report) or by the `Store` model. Row-level security and triggers live outside the repository.
- Timers and reloads: the 1500 ms and 2000 ms delays and `window.location.reload` are recorded as requested effects. Effect scheduling and unmount races are not modelled.
- Floating point: prices, cost, margins, inventory value, progress-bar widths, `parseFloat` and `toFixed`.
- Lengths: the zod schemas and the organisation form count UTF-16 code units, as JavaScript's `length` does. Elsewhere a string is a sequence of Unicode scalar values, which cannot hold a lone surrogate.
- Header.TakeTwo: counts `slice(0, 2)` in characters, not UTF-16 units, so it does not model cutting an astral character in half, because a lone surrogate is not a Dafny character.
- Header.Head: `n[0]` is the first character, not the first UTF-16 unit, for the same reason; an astral first letter keeps both halves.
- Header.Initials: inherits the character-based `n[0]` and `slice(0, 2)` of Head and TakeTwo.
- Header.EmailInitials: `slice(0, 2)` of the e-mail is taken in characters, as in TakeTwo.
- Unicode: case mapping covers ASCII and Latin-1 only, because full Unicode tables are out of scope. `toUpperCase` of `ß`, `ÿ` or `µ` (U+00B5, which JavaScript maps to U+039C) is not modelled; the model leaves them unchanged. NFD accent stripping covers the Latin-1 accented letters and the combining block U+0300..U+036F.
- Numbers.ParseInt: does not model the loss of precision above 2^53, because values are unbounded integers.
- Movimientos.SubmitMovement: the reload after a save (`loadData`, MovimientosList.tsx:83-122) is not modelled. That reload sets its own loading flag and clears or sets the error, so a failed reload can leave an error on screen after a successful save. The error that SubmitMovement states is the one the save itself leaves.
- Inventory.NewProductPayload: the category lookup or creation before the insert is an input (`categoriaId`). The edit path's update (InventoryList.tsx:217-235), `handleDelete` and the price column are not modelled.
- Inventory.MapRows: the error branches of `loadProducts` are not modelled, because they only set a message and clear the list.
- Approval.Handle: the HTML confirmation page, the membership and e-mail lookups after the update, and the catch-all 500 at lines 223-238 are not modelled. No modelled step throws.
- send-approval-notification: the function is e-mail HTML and an HTTP call to the mail provider.
- examples/supabase-usage.ts and app/api/productos/route.example.ts are example code that the application does not use.
- zod internals: only the schemas' declared bounds, regex, `.safe()` limits and messages are modelled. Checks run in declaration order and before the later `trim`/`toLowerCase` transforms, as SkuCheckedBeforeTrim and TextSchemaBounds state. zod's error-path and issue-code objects are reduced to their messages.
- The e-mail schema, price schema and URL schema are not modelled, because they rely on zod's e-mail and URL recognisers and on floating point.
- lib/queryClient.ts, lib/queries and lib/schemas contain no rules; types.ts is reused only for the datatype shapes.

## Findings

| source | as written | input that shows it | evidently intended | confidence | as-written member | corrected member |
|---|---|---|---|---|---|---|
| hooks/useAdmin.ts:33 | `loading` starts true and is cleared only inside `loadSolicitudes`, which runs only for an admin; App.tsx:157 waits on it | any visitor for whom `is_admin` answers false, errors or throws | loading ends once the admin check has answered | high; not executed | AdminHook.NonAdminStuckLoading | AdminHook.MountSettles |
| components/OnboardingWizard.tsx:111 | Continue has no guard, while the selection starts as `RETAIL_GENERAL`, which is no template key; step 2 then reads `currentTemplate.icon` (line 131) of `undefined` | open the wizard and press Continuar without picking a card | Continue is disabled until a template is picked | high; not executed | Onboarding.ContinueWithoutTemplate | Onboarding.RunKeepsConfirmable |
| components/MovimientosList.tsx:146 | `cantidad <= 0` is false for NaN, so an unparsable quantity passes the check and is inserted as JSON `null` | the quantity field left empty or holding no digits, submitted with the browser's constraint validation bypassed (a scripted submit or a non-validating client), since the input is `type="number" min="1" required` (lines 395-403) inside the form of line 351 | a quantity that does not parse is refused like one at most 0 | medium (reachable only past the browser's validation); not executed | Movimientos.NaNQuantityPasses | Movimientos.SubmitMovement |
