# SIGO-Mobile incident workflow, modelled in Dafny

SIGO-Mobile is a React Native client for registering and tracking
emergency-service incidents ("ocorrências"). This project models the logic
that the client holds, apart from rendering:

- the incidents service (`OcorrenciasService`):
  - the profile lookup, which never throws;
  - the user-id guard in front of the list request;
  - the renaming and defaults that turn the screen's object into the create payload;
  - the handling of ok and non-ok replies.
- the registration screen (`IncidentRegistration`):
  - the `formData` draft with one setter per input;
  - the required-field check;
  - the payload extension with `gps` and `idEquipes`;
  - the `loading` flag.
- the "my incidents" screen (`MyIncidents`):
  - the cached list and its reload;
  - the status menu;
  - the optimistic status change and its fall-back reload.
- the status update on a list and the badge colour of a status (`Incidents`).
- the stats context (`Stats`): a merge update, an increment, and a decrement floored at zero.
- the accessibility context (`Accessibility`): three preference flags and the theme derived from them.
- the user context (`Session`): a nullable user, `signIn`, `signOut` and the derived `signed`.

Every `fetch` is represented by the reply it produced (`Reply<T>`: no
connection, or a response with its `ok` flag, its text and its parsed JSON).
Every service operation returns the requests it issued, so "no list request
is made" is a statement about that sequence. State that a screen or context
updates in place is a class with fields. Its methods take the replies as
parameters and state the new state in terms of pure functions, and the
lemmas are proved about those functions.

Behaviour the code does not have, which the model therefore does not have
either:
- Validation requires only `endereco`, `tipo` and `codigoViatura`. Priority is not checked, and neither is a subcategory.
- Nothing clears `subtipo` when `tipo` changes. In fact no input of the screen sets `subtipo` at all.
- The type values are `fire`, `traffic_accident`, `medic_emergency` and `other`.
- The status menu offers only "Em Andamento" and "Finalizada". There is no reopening to "Aberta".
- A failed status change is not reverted when the reload fails as well: the optimistic list stays.
- The draft is not cleared after a successful submission.

## Model

| member | source | states |
|---|---|---|
| Incidents.WithStatus | src/screens/main/MyIncidentsScreen.js:57-59 | same length and order; every incident with the id gets the new status, with all its other fields unchanged; every other incident is unchanged |
| Incidents.WithStatusIdempotent | src/screens/main/MyIncidentsScreen.js:57-59 | applying the same status change twice equals applying it once |
| Incidents.WithStatusLastWins | src/screens/main/MyIncidentsScreen.js:57-59 | of two changes to the same incident the later status wins |
| Incidents.WithStatusUnknownId | src/screens/main/MyIncidentsScreen.js:57-59 | an id no incident carries leaves the list unchanged |
| Incidents.StatusColor | src/screens/main/MyIncidentsScreen.js:70-77 | total: Aberta, Em Andamento and Finalizada get #E74C3C, #F1C40F and #2ECC71; every other string gets #95A5A6 |
| Incidents.StatusColorsDistinguish | src/screens/main/MyIncidentsScreen.js:70-77 | a known status gets a colour no other status (known or not) gets |
| OcorrenciasService.UserProfile | src/services/OcorrenciasService.js:4-21 | never throws: the parsed profile only on an ok reply that parses, null on a non-ok status, a connection error or an unparsable body |
| OcorrenciasService.IdentifiedUser | src/services/OcorrenciasService.js:29-33 | a user id is found exactly when the profile is not null and has a non-empty id |
| OcorrenciasService.ErrorText | src/services/OcorrenciasService.js:42-46 | the error message is the response text, or the fixed default when the text is empty |
| OcorrenciasService.GetMyIncidents | src/services/OcorrenciasService.js:24-55 | without an identified user it throws "Usuário não identificado…" after the profile request alone; otherwise it sends the list request for that id and succeeds exactly on an ok reply that parses, with that list; a non-ok reply throws its text or "Falha ao buscar ocorrências" |
| OcorrenciasService.BuildPayload | src/services/OcorrenciasService.js:62-72 | categoria, prioridade, endereco and codigo_viatura equal tipo, prioridade, endereco and codigoViatura; subcategoria, descricao and ponto_referencia are '' exactly when the input field is missing or empty and otherwise equal it; gps is the input's or [0, 0]; id_equipes is always empty |
| OcorrenciasService.PayloadKeepsInput | src/services/OcorrenciasService.js:62-72 | an input with all optional keys present is recovered from its payload, apart from idEquipes |
| OcorrenciasService.PayloadOfInputOf | src/services/OcorrenciasService.js:62-72 | every payload with no teams is the payload of the input recovered from it |
| OcorrenciasService.MissingAndEmptyAgree | src/services/OcorrenciasService.js:64-68 | a missing and an empty subtipo, descricao or pontoReferencia give the same payload |
| OcorrenciasService.RegisterIncident | src/services/OcorrenciasService.js:58-104 | exactly one create request with the built payload; succeeds exactly on an ok reply; a non-ok reply throws its text or "Falha ao registrar ocorrência"; an ok body that is not JSON yields {success: true} |
| OcorrenciasService.ThrownMessagesNonEmpty | src/services/OcorrenciasService.js:85-89 | every error either call throws with a message carries a non-empty message |
| IncidentRegistration.Submittable | src/screens/main/IncidentRegistrationScreen.js:52 | a draft may be submitted exactly when none of endereco, tipo and codigoViatura is empty |
| IncidentRegistration.ScreenPayload | src/screens/main/IncidentRegistrationScreen.js:61-66 | the draft's fields unchanged, plus gps = [0, 0] and idEquipes = [] |
| IncidentRegistration.SentPayload | src/screens/main/IncidentRegistrationScreen.js:61-68 | the body that reaches the backend holds every draft field under its backend name, gps [0, 0] and no teams; the draft can be read back from it |
| IncidentRegistration.SentPayloadInjective | src/screens/main/IncidentRegistrationScreen.js:61-68 | two different drafts never give the same request body |
| IncidentRegistration.OptionalFieldsNotRequired | src/screens/main/IncidentRegistrationScreen.js:52 | pontoReferencia, subtipo, prioridade and descricao never decide whether a draft may be submitted |
| IncidentRegistration.RequiredFieldsRequired | src/screens/main/IncidentRegistrationScreen.js:52-55 | an empty endereco, tipo or codigoViatura blocks the submission |
| IncidentRegistration.InitialDraftNeedsRequiredFields | src/screens/main/IncidentRegistrationScreen.js:20-28 | the initial draft cannot be submitted; filling the three required fields is necessary and sufficient |
| IncidentRegistration.RegistrationScreen.constructor | src/screens/main/IncidentRegistrationScreen.js:17-28 | every field empty except prioridade = 'low'; not loading |
| IncidentRegistration.RegistrationScreen.SetEndereco | src/screens/main/IncidentRegistrationScreen.js:145 | replaces endereco only |
| IncidentRegistration.RegistrationScreen.SetPontoReferencia | src/screens/main/IncidentRegistrationScreen.js:152 | replaces pontoReferencia only |
| IncidentRegistration.RegistrationScreen.SelectTipo | src/screens/main/IncidentRegistrationScreen.js:37-42 | replaces tipo only, with one of the four type values; subtipo is kept |
| IncidentRegistration.RegistrationScreen.SelectPrioridade | src/screens/main/IncidentRegistrationScreen.js:44-48 | replaces prioridade only, with low, medium or high |
| IncidentRegistration.RegistrationScreen.SetCodigoViatura | src/screens/main/IncidentRegistrationScreen.js:173 | replaces codigoViatura only |
| IncidentRegistration.RegistrationScreen.SetDescricao | src/screens/main/IncidentRegistrationScreen.js:180 | replaces descricao only |
| IncidentRegistration.RegistrationScreen.HandleRegister | src/screens/main/IncidentRegistrationScreen.js:50-79 | an incomplete draft shows the missing-fields alert and sends nothing; otherwise it sends exactly the create request for the extended draft, shows success or failure by the call's result, and ends not loading; the draft is kept; every request sent carries an empty subcategoria, since no input sets subtipo |
| MyIncidents.MenuTarget | src/screens/main/MyIncidentsScreen.js:36-52 | Cancelar asks for nothing; the "Em Andamento" button asks for Em Andamento and the "Finalizada" button for Finalizada; never Aberta |
| MyIncidents.Reloaded | src/screens/main/MyIncidentsScreen.js:16-26 | a successful load replaces the list, a failed one keeps it |
| MyIncidents.AfterStatusChange | src/screens/main/MyIncidentsScreen.js:54-66 | a confirmed change leaves the optimistic list; a thrown one leaves the reloaded list, or the optimistic list when the reload fails too |
| MyIncidents.UpdateStepAsWritten | src/screens/main/MyIncidentsScreen.js:62 | the backend step never confirms, since the called name is not exported by the service |
| MyIncidents.ConfirmedChangeKept | src/screens/main/MyIncidentsScreen.js:54-62 | a confirmed change does not depend on what a reload would return; the incident carries the new status |
| MyIncidents.FailedChangeReloads | src/screens/main/MyIncidentsScreen.js:63-66 | after a thrown step and a successful reload the outcome is the same for any cached list, id and status; when the reload fails too the incident keeps the new status |
| MyIncidents.ConfirmedChangeIdempotent | src/screens/main/MyIncidentsScreen.js:54-62 | repeating a confirmed change changes nothing more |
| MyIncidents.StatusChangeLostAsWritten | src/screens/main/MyIncidentsScreen.js:9 | with the service as written the list always ends as the reload leaves it |
| MyIncidents.StatusChangeLostExample | src/screens/main/MyIncidentsScreen.js:54-66 | an open incident moved to Em Andamento is shown open again when the server still lists it open |
| MyIncidents.MyIncidentsScreen.constructor | src/screens/main/MyIncidentsScreen.js:13-14 | empty list, not loading |
| MyIncidents.MyIncidentsScreen.LoadIncidents | src/screens/main/MyIncidentsScreen.js:16-26 | the list is replaced on success and kept on failure; loading ends false |
| MyIncidents.MyIncidentsScreen.ChangeStatus | src/screens/main/MyIncidentsScreen.js:54-67 | the list is the optimistic update, followed by the reload when the backend step threw |
| MyIncidents.MyIncidentsScreen.HandleStatusChange | src/screens/main/MyIncidentsScreen.js:36-52 | Cancelar changes nothing; the other buttons run the status change to their target, and loading is kept after a confirmed step and false after the reload |
| Stats.Merged | src/contexts/StatsContext.js:11-16 | keys present in the patch are overwritten, all others kept |
| Stats.Incremented | src/contexts/StatsContext.js:25-30 | ocorrenciasHoje grows by exactly one; statusEquipe unchanged |
| Stats.Decremented | src/contexts/StatsContext.js:18-23 | ocorrenciasHoje drops by one but never below zero (at 0 it stays 0); statusEquipe unchanged |
| Stats.IncrementThenDecrement | src/contexts/StatsContext.js:18-30 | increment then decrement restores a non-negative count; a negative count is floored to zero |
| Stats.DecrementThenIncrement | src/contexts/StatsContext.js:18-30 | decrement then increment restores a positive count; decrement at zero changes nothing |
| Stats.MergeLaws | src/contexts/StatsContext.js:11-16 | an empty patch is the identity, a patch is idempotent, a later patch overrides an earlier one key by key |
| Stats.CountStaysNonNegative | src/contexts/StatsContext.js:6-30 | from a non-negative count, any series of increments, decrements and non-negative updates keeps the count non-negative |
| Stats.CountersLeaveTeamStatus | src/contexts/StatsContext.js:18-30 | any series of increments and decrements leaves statusEquipe unchanged |
| Stats.StatsStore.constructor | src/contexts/StatsContext.js:6-9 | both counters start at zero |
| Stats.StatsStore.UpdateStats | src/contexts/StatsContext.js:11-16 | the record becomes the merge of the old record and the patch |
| Stats.StatsStore.DecrementActiveIncidents | src/contexts/StatsContext.js:18-23 | the record becomes its floored decrement |
| Stats.StatsStore.IncrementActiveIncidents | src/contexts/StatsContext.js:25-30 | the record becomes its increment |
| Accessibility.ThemeFor | src/contexts/AccessibilityContext.js:13-34 | high contrast gives the yellow-on-black theme whatever dark mode says; the status bar is light exactly under high contrast or dark mode; highlight equals primary exactly without high contrast; text never equals background |
| Accessibility.HighContrastOverridesDarkMode | src/contexts/AccessibilityContext.js:11-34 | under high contrast the theme does not depend on dark mode; text, textSecondary, border and highlight are #FFFF00; all backgrounds are #000000 |
| Accessibility.DarkModeMatters | src/contexts/AccessibilityContext.js:14-30 | without high contrast dark mode changes the background and makes the status bar light |
| Accessibility.AccessibilitySettings.CurrentTheme | src/contexts/AccessibilityContext.js:13-42 | the theme handed out for the current flags: the high-contrast palette when high contrast is on; the status bar light exactly under high contrast or dark mode |
| Accessibility.AccessibilitySettings.constructor | src/contexts/AccessibilityContext.js:7-9 | dark mode and high contrast off, font size level 1 |
| Accessibility.AccessibilitySettings.SetIsDarkMode | src/contexts/AccessibilityContext.js:7 | sets dark mode only; under high contrast the theme does not change |
| Accessibility.AccessibilitySettings.SetHighContrast | src/contexts/AccessibilityContext.js:8 | sets high contrast only |
| Accessibility.AccessibilitySettings.SetFontSizeLevel | src/contexts/AccessibilityContext.js:9 | sets the font size level only; the theme does not change |
| Session.SignedInUser | src/contexts/UserContext.js:13-16 | the given user, or {name: 'Usuário Padrão'} when none is given |
| Session.UserSession.Signed | src/contexts/UserContext.js:24 | signed holds exactly when a user is stored |
| Session.UserSession.constructor | src/contexts/UserContext.js:10 | no user, not signed |
| Session.UserSession.SignIn | src/contexts/UserContext.js:13-16 | user becomes the given or default user; signed is true |
| Session.UserSession.SignOut | src/contexts/UserContext.js:19-21 | user becomes null; signed is false |

## Left out

- Network plumbing: `fetch`, `credentials: 'include'`, headers, `JSON.stringify` and `response.json()`. Each reply is a parameter (`Reply<T>`), and a body that does not parse is `None`.
- The status update request: `updateIncidentStatus` is not defined in src/services/OcorrenciasService.js, so the request it would send is not part of this model. Its outcome is the `UpdateStep` parameter.
- Asynchronous interleaving: each handler is one sequential step. The `loadIncidents()` started by a failed `changeStatus` is not awaited in the source, but here it runs to completion inside `ChangeStatus`. The intermediate `loading = true` is set and cleared within one step.
- Alerts, console logging, date formatting, and the navigation to the list after a successful registration.
- Rendering and styling: all JSX and `StyleSheet` code, the other screens, the navigators, the login service, and the floating-point font-size cycling of the accessibility screen.
- JSON shapes outside the model:
  - a list body that parses but is not an array;
  - a numeric user id (only the empty string is treated as a falsy id);
  - keys of `updateStats` other than the two counters;
  - non-integer counts.
- Session.SignedInUser: treats only a missing argument (`null`/`undefined`) as falsy. Other falsy values are not user objects.
- OcorrenciasService.RegisterIncident: the backend's created object is represented as an `Incident`, because the backend contract is not part of this model.

## Findings

| source | as written | input that shows it | evidently intended | confidence | as-written member | corrected member |
|---|---|---|---|---|---|---|
| src/screens/main/MyIncidentsScreen.js:9 | `updateIncidentStatus` is imported from the service, which does not export it. The call at line 62 therefore throws, every status change falls into the catch, and the list ends as the reload leaves it. | incident "1" with status Aberta, changed to "Em Andamento" while the server still lists it as Aberta: after the step it shows Aberta again | the backend confirms the change, and the optimistic list is kept | not executed; high for the missing export, medium for the runtime effect, which depends on the bundler | MyIncidents.StatusChangeLostAsWritten | MyIncidents.ConfirmedChangeKept |
