# Neviweb130 config flow — a Dafny model

The Neviweb130 Home Assistant integration sets itself up through a config
flow with two pieces of decision logic:

- **The user step** (`async_step_user` with `_async_validate_credentials`).
  The username becomes the flow's unique id. A username that is already
  configured aborts the flow. Otherwise the credentials are posted to the
  Neviweb login URL and the response is classified into one of three errors
  maps: `{}`, `{"base": "invalid_auth"}` or `{"base": "cannot_connect"}`.
  An empty map creates an entry titled with the username whose data is the
  input as it is. A non-empty map shows the credential form again with those
  errors.
- **The options step** (`_show_options_form`). Submitted input becomes the
  entry data verbatim. Without input, the stored entry's `data` is overlaid
  by its `options`. Each of the eight recognised options is then shown with a
  default: its stored value if there is one, else the module default (`""`
  for the three network identifiers). A scan interval that is a duration is
  shown as its whole seconds, truncated toward zero.

The model is pure: datatypes, functions and lemmas in three modules.

- `FlowValues` (`values.dfy`) holds the keys, the Python values and the step
  results: `CreateEntry`, `ShowForm`, `Abort` and `Raise`, where `Raise` is an
  exception escaping the step.
- `Login` (`login.dfy`) takes the login exchange as an input. That is either
  a status with a decoded JSON body, or a `TransportFailure`. The user step
  receives the login call as a function from the request to the exchange, so
  lemmas can state which request the outcome depends on, and that an abort
  depends on none.
- `OptionsForm` (`options.dfy`) takes the stored entry (or its absence) and
  the schema module's defaults as inputs.

The classification follows Python's evaluation order exactly, and so it has
the following crash cases:

- The `or` at line 45 short-circuits. So a body that is not a dict raises
  only when the status is 200, at `data.get`. With any other status, the
  `isinstance` guard at line 46 makes the code `None` and the result is
  `cannot_connect`.
- In the failure branch, an `"error"` member that is present but not a dict
  raises at `.get("code")`. This includes `"error": null` with a non-200
  status.
- Exceptions from `session.post` or `response.json()` are not caught; they
  leave the step as `Raise(TransportError)`.

Submitted options are returned unmerged (config_flow.py:84-85). Integer
coercion happens in the voluptuous schema, listed under "## Left out".

## Model

| member | source | states |
|---|---|---|
| `Login.ValidateCredentials` | custom_components/neviweb130/config_flow.py:45-51 | whatever is returned is one of the three errors maps, and a non-empty one has the single key `"base"` |
| `Login.ErrorMapsDistinct` | custom_components/neviweb130/config_flow.py:48-51 | the empty, `invalid_auth` and `cannot_connect` maps are pairwise different |
| `Login.AcceptedIff` | custom_components/neviweb130/config_flow.py:45-51 | the empty map is returned exactly for status 200 with a dict body whose `"error"` is absent or null |
| `Login.InvalidAuthIff` | custom_components/neviweb130/config_flow.py:45-48 | `invalid_auth` is returned exactly when the body is a dict whose `"error"` dict has a string code in {LOGIN_007, LOGIN_000, LOGIN_008}, whatever the status |
| `Login.CannotConnectIff` | custom_components/neviweb130/config_flow.py:45-49 | `cannot_connect` is returned exactly in the failure branch with no `"error"` or an `"error"` dict without a bad code, or for a non-200 status with a non-dict body |
| `Login.RaisesIff` | custom_components/neviweb130/config_flow.py:36-46 | the step raises exactly on a transport failure, on a non-dict body with status 200, or on a non-dict `"error"` in the failure branch (so `"error": null` with a non-200 status raises); a transport failure is never `cannot_connect` |
| `Login.ValidationRange` | custom_components/neviweb130/config_flow.py:45-51 | a map is returned for some response if and only if it is one of the three errors maps |
| `Login.UserStep` | custom_components/neviweb130/config_flow.py:53-76 | no input shows the blank form; a created entry has the username as title and the input as data; a shown form after input carries a non-empty errors map among the three; an abort means the username is configured |
| `Login.UserStepCreatesEntryIff` | custom_components/neviweb130/config_flow.py:58-64 | an entry is created exactly when the username is new, the password is present and the response is accepted, and it is `CreateEntry(username, input)` |
| `Login.UserStepAbortsBeforeLogin` | custom_components/neviweb130/config_flow.py:58-61 | a configured username aborts with `already_configured` whatever the login service would answer |
| `Login.UserStepSendsTheCredentials` | custom_components/neviweb130/config_flow.py:35-43 | the outcome depends on the login service only through its answer to the request carrying the input's username as `email` and its password |
| `Login.UserStepShowsErrors` | custom_components/neviweb130/config_flow.py:61-76 | non-empty errors from the classification are shown on the user form and no entry is created |
| `Login.UserStepFormOnlyFromErrors` | custom_components/neviweb130/config_flow.py:58-76 | a form shown after input means the username was new, the password present, and the classification returned exactly the errors the form carries |
| `Login.UserStepRaisesIff` | custom_components/neviweb130/config_flow.py:36-61 | the step raises exactly on a missing username, or for a new username on a missing password or a raising classification; the exception is `MissingKey(Username)`, `MissingKey(Password)` or the classification's own failure, so a failed login call gives `Raise(TransportError)` and never the `cannot_connect` form |
| `OptionsForm.Current` | custom_components/neviweb130/config_flow.py:87-88 | no entry gives the empty map; otherwise the keys are those of data and options together, an options value wins, and a data-only key keeps its data value |
| `OptionsForm.TruncateTowardZero` | custom_components/neviweb130/config_flow.py:92 | the result has the sign of the input and lies within one of it, toward zero |
| `OptionsForm.NormalizeScan` | custom_components/neviweb130/config_flow.py:90-92 | a duration becomes its truncated seconds as an integer; any other value is unchanged; the result is never a duration |
| `OptionsForm.OptionDefaults` | custom_components/neviweb130/config_flow.py:90-113 | exactly the eight recognised keys get a default: the current value if present, else the module default (`""` for the networks), the scan interval normalised after that choice |
| `OptionsForm.OptionsStep` | custom_components/neviweb130/config_flow.py:78-117 | input gives `CreateEntry("Options", input)`; no input shows the options form with no errors, defaults for exactly the recognised keys and a scan interval that is not a duration |
| `OptionsForm.OptionsInputVerbatim` | custom_components/neviweb130/config_flow.py:84-85 | submitted options become the entry data exactly, independent of the stored entry and the module defaults |
| `OptionsForm.StoredOptionWins` | custom_components/neviweb130/config_flow.py:87-113 | for every recognised key the value chosen is the stored option, else the stored data value, else the module default; the shown default is that value, normalised for the scan interval |
| `OptionsForm.ScanIntervalShownInSeconds` | custom_components/neviweb130/config_flow.py:90-92 | a scan interval found as a duration, stored or default, is shown as `int(total_seconds)` |
| `OptionsForm.MissingEntryShowsModuleDefaults` | custom_components/neviweb130/config_flow.py:87-113 | a missing entry renders like an entry with nothing stored: the module defaults and empty network identifiers |
| `OptionsForm.DefaultsReadOnlyOptionKeys` | custom_components/neviweb130/config_flow.py:90-113 | two merged maps that agree on the recognised keys render the same defaults, so rendering is determined by the stored state |
| `OptionsForm.DefaultsStable` | custom_components/neviweb130/config_flow.py:88-113 | storing the shown defaults as the entry's options and rendering again shows the same defaults |

## Left out

- The HTTP session, the POST to `LOGIN_URL` and `response.json()` (config_flow.py:35-43) are network I/O. The model takes the exchange as an input. `LOGIN_URL` and the JSON encoding of the request are not modelled.
- Home Assistant framework calls are foreign code: `async_set_unique_id`, `_abort_if_unique_id_configured`, `async_create_entry`, `async_show_form` and `config_entries.async_get_entry`. They appear only as abstract outcomes and inputs. The set of configured unique ids stands for what the abort check consults. The abort for a flow already in progress for the same unique id is not modelled.
- The voluptuous schemas (config_flow.py:66-74, 94-115) are library code: `vol.Required`, `vol.Optional`, `vol.Coerce(int)` and `vol.In`. The model does not claim any coercion or validation of input. The shown forms carry defaults and errors, not the schema.
- The constants `SCAN_INTERVAL`, `HOMEKIT_MODE`, `IGNORE_MIWI`, `STAT_INTERVAL` and `NOTIFY` come from the schema module, which is not part of this model; they are parameters. The `CONF_*` key names come from constant modules that are not part of this model. They are modelled as distinct `Key` constructors.
- `self.context["entry_id"]` (config_flow.py:87) is framework state; the looked-up entry, or its absence, is an input.
- `NeviwebOptionsFlowHandler` and `async_get_options_flow` (config_flow.py:120-138) only build a flow object and delegate to `_show_options_form`, which `OptionsStep` models.
- OptionsForm.TruncateTowardZero: `total_seconds()` returns a float. The model carries it as an exact real, so binary floating-point rounding is not modelled.
- JSON numbers are carried as reals with no int/float distinction. The classification compares the code only with strings, so the distinction cannot change a result.
- async/await scheduling is not modelled; nothing in these steps depends on it.
