/**
 * The settings configuration of SettingsUI: an immutable record saying which
 * optional settings sections (donations, feedback, colour themes, features,
 * acknowledgements) the host application enables, with the derived flags that
 * decide whether each section has enough data to be shown and the colour the
 * settings screens are drawn in.
 */
module Configuration {
  import opened Wrappers
  import ShrimpExtensions

  /** A purchasable donation option; its fields are not part of this model. */
  type StoreKitDonation(==)

  /** A feature-flag entry; its fields are not part of this model. */
  type Feature(==)

  /** A colour identifier of the app's palette, compared by equality. */
  type AppColor(==)

  /** A concrete display colour of the UI toolkit. */
  type Color

  /** One byte of a `Data` buffer. */
  newtype byte = x: int | 0 <= x < 256

  type Data = seq<byte>

  /**
   * What the UI toolkit supplies for colours: the identifier-to-colour
   * mapping (`AppColor.color`) and the platform accent colour used when no
   * colour configuration exists.
   */
  datatype ColorResolution = ColorResolution(color: AppColor -> Color, accentColor: Color)

  /** The issue-reporting target of the feedback section. */
  datatype FeedbackConfiguration = FeedbackConfiguration(
    token: string,
    username: string,
    repoName: string,
    additionalLabels: seq<string> := [],
    additionalData: Option<Data> := None)

  /** The palette offered by the colour section and the colour in use. */
  datatype ColorsConfiguration = ColorsConfiguration(colors: seq<AppColor>, currentColor: AppColor)

  datatype SettingsConfiguration = SettingsConfiguration(
    donations: seq<StoreKitDonation>,
    feedback: Option<FeedbackConfiguration>,
    color: Option<ColorsConfiguration>,
    features: seq<Feature>,
    isDefault: bool)

  /**
   * `additionalDataString`: the extra feedback data as text. `decode` stands
   * for the toolkit's UTF-8 decoder, which yields nil on bytes that are not
   * valid UTF-8.
   */
  function AdditionalDataString(f: FeedbackConfiguration, decode: Data -> Option<string>): (r: Option<string>)
    ensures f.additionalData.None? ==> r.None?
    ensures f.additionalData.Some? ==> r == decode(f.additionalData.value)
  {
    match f.additionalData
    case None => None
    case Some(data) => decode(data)
  }

  /**
   * The public initializer: every section as given (empty or absent when
   * left out), never the default marker.
   */
  function Init(
    donations: seq<StoreKitDonation> := [],
    feedback: Option<FeedbackConfiguration> := None,
    color: Option<ColorsConfiguration> := None,
    features: seq<Feature> := []): (r: SettingsConfiguration)
    ensures r.donations == donations && r.feedback == feedback
    ensures r.color == color && r.features == features
    ensures !r.isDefault
  {
    SettingsConfiguration(donations, feedback, color, features, false)
  }

  /**
   * The private `init(isDefault:)`: the public initializer with all its
   * defaults, then the marker overwritten.
   */
  function PrivateInit(isDefault: bool): (r: SettingsConfiguration)
    ensures r.isDefault == isDefault
    ensures r.(isDefault := false) == Init()
  {
    Init().(isDefault := isDefault)
  }

  /** `SettingsConfiguration.default`: nothing configured, marked as the default. */
  function Default(): (r: SettingsConfiguration)
    ensures r.isDefault
    ensures r.donations == [] && r.feedback.None? && r.color.None? && r.features == []
  {
    PrivateInit(true)
  }

  /** `donationsIsConfigured`. */
  function DonationsIsConfigured(c: SettingsConfiguration): (r: bool)
    ensures r <==> |c.donations| > 0
  {
    c.donations != []
  }

  /** `feedbackIsConfigured`. */
  function FeedbackIsConfigured(c: SettingsConfiguration): (r: bool)
    ensures r <==> c.feedback.Some?
  {
    c.feedback != None
  }

  /**
   * `colorsIsConfigured`: a colour configuration is present, its palette is
   * not empty and a scan of the palette finds the current colour.
   */
  function ColorsIsConfigured(c: SettingsConfiguration): (r: bool)
    ensures c.color.None? ==> !r
    ensures c.color.Some? ==>
      (r <==> |c.color.value.colors| > 0 && c.color.value.currentColor in c.color.value.colors)
  {
    match c.color
    case None => false
    case Some(color) =>
      color.colors != [] &&
      ShrimpExtensions.Find(color.colors, (x: AppColor) => x == color.currentColor) != None
  }

  /** `featuresIsConfigured`. */
  function FeaturesIsConfigured(c: SettingsConfiguration): (r: bool)
    ensures r <==> |c.features| > 0
  {
    c.features != []
  }

  /** `acknowledgementsAreConfigured`: the acknowledgements section is always available. */
  function AcknowledgementsAreConfigured(c: SettingsConfiguration): (r: bool)
    ensures r
  {
    true
  }

  /** `currentColor`: `color?.currentColor.color ?? .accentColor`. */
  function CurrentColor(c: SettingsConfiguration, toolkit: ColorResolution): (r: Color)
    ensures c.color.Some? ==> r == toolkit.color(c.color.value.currentColor)
    ensures c.color.None? ==> r == toolkit.accentColor
  {
    c.color.Map((color: ColorsConfiguration) => toolkit.color(color.currentColor)).GetOr(toolkit.accentColor)
  }

  /**
   * The emptiness test in `colorsIsConfigured` is implied by the membership
   * test: the flag is exactly "a colour configuration whose current colour is
   * in its palette".
   */
  lemma ColorsIsConfiguredIsMembership(c: SettingsConfiguration)
    ensures ColorsIsConfigured(c) <==>
      c.color.Some? && c.color.value.currentColor in c.color.value.colors
  {
  }

  /** The scan in `colorsIsConfigured` finds the current colour itself. */
  lemma ColorsIsConfiguredFindsCurrentColor(c: SettingsConfiguration)
    requires ColorsIsConfigured(c)
    ensures ShrimpExtensions.Find(c.color.value.colors, (x: AppColor) => x == c.color.value.currentColor)
      == Some(c.color.value.currentColor)
  {
  }

  /**
   * Two palettes over two colours: `[red, blue]` with `blue` current is
   * configured; `[red]` with `blue` current is configured only when the two
   * colours are the same.
   */
  lemma ColorsIsConfiguredExamples(red: AppColor, blue: AppColor)
    ensures ColorsIsConfigured(Init(color := Some(ColorsConfiguration([red, blue], blue))))
    ensures ColorsIsConfigured(Init(color := Some(ColorsConfiguration([red], blue)))) <==> red == blue
  {
  }

  /** When the colour section is shown, the screen colour is that of a palette entry. */
  lemma ConfiguredColorComesFromPalette(c: SettingsConfiguration, toolkit: ColorResolution)
    requires ColorsIsConfigured(c)
    ensures exists i ::
              0 <= i < |c.color.value.colors| &&
              CurrentColor(c, toolkit) == toolkit.color(c.color.value.colors[i])
  {
  }

  /** The default instance enables no section except acknowledgements. */
  lemma DefaultIsNotConfigured()
    ensures !DonationsIsConfigured(Default())
    ensures !FeedbackIsConfigured(Default())
    ensures !ColorsIsConfigured(Default())
    ensures !FeaturesIsConfigured(Default())
    ensures AcknowledgementsAreConfigured(Default())
  {
  }

  /**
   * The public initializer keeps its arguments apart (it stores them
   * unchanged) and cannot produce the default instance, not even with all
   * its defaults.
   */
  lemma InitStoresArguments(
    donations: seq<StoreKitDonation>, feedback: Option<FeedbackConfiguration>,
    color: Option<ColorsConfiguration>, features: seq<Feature>,
    donations': seq<StoreKitDonation>, feedback': Option<FeedbackConfiguration>,
    color': Option<ColorsConfiguration>, features': seq<Feature>)
    ensures Init(donations, feedback, color, features) == Init(donations', feedback', color', features')
      <==> donations == donations' && feedback == feedback' && color == color' && features == features'
    ensures Init(donations, feedback, color, features) != Default()
  {
  }
}
