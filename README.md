# SettingsUI settings configuration, in Dafny

This project models `SettingsConfiguration`, the record that a host
application gives to SettingsUI. It says which optional settings sections
are enabled:

- donations, a list of StoreKit donation options;
- feedback, an optional issue-reporting target;
- colour themes, an optional palette with the colour in use;
- features, a list of feature flags.

It also has an internal `isDefault` marker. The screens read derived flags
that decide whether each section has enough data to be shown. They also read
`currentColor`, the colour the screens are drawn in. The record never changes
after construction, except that the private initializer sets `isDefault`
right after running the public one. No code changes it afterwards. So the
model is made of datatypes, total functions and lemmas, and the private
initializer is a functional update of the marker:

- `wrappers.dfy` (module `Wrappers`): `Option`, standing for Swift's `T?`.
  It also holds optional chaining (`Map`) and nil-coalescing (`GetOr`).
- `shrimp_extensions.dfy` (module `ShrimpExtensions`): `Find`, the
  `find(where:)` sequence helper. It comes from the ShrimpExtensions library,
  which is not part of this model. It is taken to return the first element
  that satisfies the predicate, or nil.
- `settings_configuration.dfy` (module `Configuration`): the records, the
  initializers, the five readiness flags, `currentColor`,
  `additionalDataString` and the lemmas about them.

`StoreKitDonation`, `Feature`, `AppColor` and `Color` are opaque types.
`AppColor` supports equality because the source compares colours with `==`.
The toolkit supplies two things: the mapping `AppColor.color` and the
platform `.accentColor`. Both are carried by a `ColorResolution` value passed
to `CurrentColor`. Foundation's UTF-8 decoder `String(data:encoding:)` is a
`decode` parameter of `AdditionalDataString`.

The initializers of `FeedbackConfiguration` and `ColorsConfiguration` store
their arguments and do nothing else. They are the datatype constructors of
the same names. Swift's default arguments are Dafny default parameter values.
`Init` defaults every section to empty or absent, and `FeedbackConfiguration`
defaults `additionalLabels` to `[]` and `additionalData` to `None`.
`PrivateInit` calls `Init()` with no arguments, as `self.init()` does.

## Model

| member | source | states |
|---|---|---|
| `Wrappers.Option.Map` | Sources/SettingsUI/SwiftUI/Environment/SettingsConfiguration.swift:57 | Optional chaining `?.`: the result is present exactly when the input is, and then holds `f` applied to the input's value. |
| `Wrappers.Option.GetOr` | Sources/SettingsUI/SwiftUI/Environment/SettingsConfiguration.swift:57 | Nil-coalescing `??`: the value when present, the fallback when absent. |
| `ShrimpExtensions.Find` | Sources/SettingsUI/SwiftUI/Environment/SettingsConfiguration.swift:45 | The result is nil exactly when no element satisfies the predicate. Otherwise it is an element that satisfies it, and no element before it does (the first match). |
| `Configuration.AdditionalDataString` | Sources/SettingsUI/SwiftUI/Environment/SettingsConfiguration.swift:80-84 | Absent data gives no string. Present data gives whatever the UTF-8 decoder makes of those bytes. |
| `Configuration.Init` | Sources/SettingsUI/SwiftUI/Environment/SettingsConfiguration.swift:16-27 | The public initializer stores the four sections unchanged, and the result is never marked as the default. A section left out defaults to empty (donations, features) or absent (feedback, colour). |
| `Configuration.PrivateInit` | Sources/SettingsUI/SwiftUI/Environment/SettingsConfiguration.swift:29-32 | The result carries the given marker. Apart from the marker, it equals the public initializer applied to all its defaults. |
| `Configuration.Default` | Sources/SettingsUI/SwiftUI/Environment/SettingsConfiguration.swift:97 | The default instance is marked as the default. It has no donations, no feedback, no colour configuration and no features. |
| `Configuration.DonationsIsConfigured` | Sources/SettingsUI/SwiftUI/Environment/SettingsConfiguration.swift:34-36 | Holds exactly when there is at least one donation option. |
| `Configuration.FeedbackIsConfigured` | Sources/SettingsUI/SwiftUI/Environment/SettingsConfiguration.swift:38-40 | Holds exactly when a feedback configuration is present. |
| `Configuration.ColorsIsConfigured` | Sources/SettingsUI/SwiftUI/Environment/SettingsConfiguration.swift:42-46 | False without a colour configuration. With one, it holds exactly when the palette is non-empty and contains the current colour. |
| `Configuration.FeaturesIsConfigured` | Sources/SettingsUI/SwiftUI/Environment/SettingsConfiguration.swift:48-50 | Holds exactly when there is at least one feature. |
| `Configuration.AcknowledgementsAreConfigured` | Sources/SettingsUI/SwiftUI/Environment/SettingsConfiguration.swift:52-54 | Holds for every configuration. |
| `Configuration.CurrentColor` | Sources/SettingsUI/SwiftUI/Environment/SettingsConfiguration.swift:56-58 | With a colour configuration, the result is the toolkit colour of its current colour. Without one, it is the accent colour. |
| `Configuration.ColorsIsConfiguredIsMembership` | Sources/SettingsUI/SwiftUI/Environment/SettingsConfiguration.swift:45 | The emptiness test is implied by membership. The colour flag is exactly "a colour configuration is present and its current colour is in its palette". |
| `Configuration.ColorsIsConfiguredFindsCurrentColor` | Sources/SettingsUI/SwiftUI/Environment/SettingsConfiguration.swift:45 | When the colour flag holds, the palette scan returns the current colour itself. |
| `Configuration.ColorsIsConfiguredExamples` | Sources/SettingsUI/SwiftUI/Environment/SettingsConfiguration.swift:42-46 | Palette `[red, blue]` with `blue` current is configured. Palette `[red]` with `blue` current is configured only when `red` and `blue` are the same colour. |
| `Configuration.ConfiguredColorComesFromPalette` | Sources/SettingsUI/SwiftUI/Environment/SettingsConfiguration.swift:42-58 | When the colour section is shown, the screen colour is the toolkit colour of some palette entry. |
| `Configuration.DefaultIsNotConfigured` | Sources/SettingsUI/SwiftUI/Environment/SettingsConfiguration.swift:29-54 | For the default instance, every readiness flag is false except acknowledgements, which is true. |
| `Configuration.InitStoresArguments` | Sources/SettingsUI/SwiftUI/Environment/SettingsConfiguration.swift:18-32 | Two public initializations are equal exactly when their four arguments are equal. No public initialization yields the default instance. |

## Left out

- `ImageTextRow` (Sources/SettingsUI/Internal/Views/SupportingViews/Rows/ImageTextRow.swift) is left out. It is a SwiftUI view that chooses between a system image and a named image, with sizing and a corner radius. `localized(comment:)` is a call into the localization system. None of this is configuration logic.
- The `EnvironmentValues.settingsConfiguration` accessor and `SettingsConfigurationKey` are left out. They carry the configuration through the view hierarchy. Their one statable fact, that the default value is `.default`, is `Default`.
- `AdditionalDataString`: the UTF-8 decoding is Foundation's and is a parameter here. So "invalid UTF-8 gives nil" and "the bytes of `hello` give `hello`" are facts about that decoder, not about this model.
- The concrete colour mapping `AppColor.color` and the value of `.accentColor` belong to the toolkit and stay abstract. So do the fields of `StoreKitDonation`, `Feature` and `AppColor`.
- `Hashable` conformance is generated by the compiler. Dafny's structural equality on the datatypes plays its role.
- Nothing validates that `token`, `username` and `repoName` are non-empty, or that a palette has no duplicates. The source does not check either, so the model does not either.
