/**
  The card redesign pipeline: trade icon and colour lookup, the three
  card templates, the substitution map with its per-field defaults, the
  rendered card for a template and watermark flag, and the loop that
  builds a preview / final pair per template.

  The templates' CSS and HTML bodies are opaque literal pieces here;
  the holes, and their order, are those of the scripts' templates.
  Turning HTML into PNG (a headless browser) is not modelled: whether a
  render succeeds is a parameter, and a variant records the HTML and
  the path the render reports.
 */
module Redesign {
  import opened Wrappers
  import opened Text
  import opened CardTemplate

  // ---------------------------------------------------------------------
  // Trade lookup tables

  /** The icon table, keyed by lower-case trade name. */
  function IconEntry(key: string): (r: Option<string>)
    ensures r.Some? ==> |r.value| > 0
    ensures key == "default" ==> r == Some(DefaultIcon)
  {
    if key == "plumber" || key == "plumbing" then Some("\U{1F527}")
    else if key == "electrician" || key == "electrical" then Some("\U{26A1}")
    else if key == "hvac" then Some("\U{2744}\U{FE0F}")
    else if key == "roofing" || key == "roofer" then Some("\U{1F3E0}")
    else if key == "painter" || key == "painting" then Some("\U{1F3A8}")
    else if key == "landscaper" || key == "landscaping" then Some("\U{1F33F}")
    else if key == "handyman" then Some("\U{1F6E0}\U{FE0F}")
    else if key == "general contractor" || key == "contractor" then Some("\U{1F3D7}\U{FE0F}")
    else if key == "carpenter" || key == "carpentry" then Some("\U{1FA9A}")
    else if key == "flooring" then Some("\U{1FAB5}")
    else if key == "concrete" || key == "mason" then Some("\U{1F9F1}")
    else if key == "welder" || key == "welding" then Some("\U{1F525}")
    else if key == "default" then Some(DefaultIcon)
    else None
  }

  /** The hammer, the icon table's "default" entry. */
  const DefaultIcon := "\U{1F528}"

  /** A digit of a lower-case hexadecimal colour. */
  predicate IsHexDigit(ch: char)
  {
    '0' <= ch <= '9' || 'a' <= ch <= 'f'
  }

  /** The accent colour table, keyed by lower-case trade name. */
  function ColorEntry(key: string): (r: Option<string>)
    ensures r.Some? ==> |r.value| == 7 && r.value[0] == '#'
    ensures r.Some? ==> forall i :: 1 <= i < 7 ==> IsHexDigit(r.value[i])
    ensures key == "default" ==> r == Some(DefaultColor)
  {
    if key == "plumber" || key == "plumbing" then Some("#2563eb")
    else if key == "electrician" || key == "electrical" then Some("#f59e0b")
    else if key == "hvac" then Some("#06b6d4")
    else if key == "roofing" || key == "roofer" then Some("#dc2626")
    else if key == "painter" || key == "painting" then Some("#8b5cf6")
    else if key == "landscaper" || key == "landscaping" then Some("#16a34a")
    else if key == "handyman" then Some("#ea580c")
    else if key == "general contractor" || key == "contractor" then Some("#334155")
    else if key == "default" then Some(DefaultColor)
    else None
  }

  /** Blue, the colour table's "default" entry. */
  const DefaultColor := "#2563eb"

  /** `get_trade_icon`: the icon for the lower-cased trade, the default entry when there is none. */
  function TradeIcon(trade: string): (r: string)
    ensures |r| > 0
  {
    IconEntry(Lower(trade)).GetOr(DefaultIcon)
  }

  /** `get_trade_color`: the colour for the lower-cased trade, the default entry when there is none. */
  function TradeColor(trade: string): (r: string)
    ensures |r| == 7 && r[0] == '#'
    ensures forall i :: 1 <= i < 7 ==> IsHexDigit(r[i])
  {
    ColorEntry(Lower(trade)).GetOr(DefaultColor)
  }

  /** Both lookups ignore letter case. */
  lemma TradeLookupIgnoresCase(trade: string, other: string)
    requires Lower(trade) == Lower(other)
    ensures TradeIcon(trade) == TradeIcon(other)
    ensures TradeColor(trade) == TradeColor(other)
  {
  }

  /** Looking up an already lower-cased name is the same as looking up the original. */
  lemma LowerCasedTradeLooksUpTheSame(trade: string)
    ensures TradeIcon(Lower(trade)) == TradeIcon(trade)
    ensures TradeColor(Lower(trade)) == TradeColor(trade)
  {
    LowerIdempotent(trade);
  }

  /** A listed trade gets its own entry, an unlisted one the default. */
  lemma TradeLookupUsesTable(trade: string)
    ensures IconEntry(Lower(trade)).Some? ==> TradeIcon(trade) == IconEntry(Lower(trade)).value
    ensures IconEntry(Lower(trade)).None? ==> TradeIcon(trade) == IconEntry("default").value
    ensures ColorEntry(Lower(trade)).Some? ==> TradeColor(trade) == ColorEntry(Lower(trade)).value
    ensures ColorEntry(Lower(trade)).None? ==> TradeColor(trade) == ColorEntry("default").value
  {
  }

  /** "electrician", in any letter case, gets the lightning icon and the amber accent. */
  lemma ElectricianAnyCase(trade: string)
    requires Lower(trade) == "electrician"
    ensures TradeIcon(trade) == "\U{26A1}" && TradeColor(trade) == "#f59e0b"
  {
  }

  /** Every trade with a colour has an icon: the colour table's keys are among the icon table's. */
  lemma ColorKeysHaveIcons(key: string)
    ensures ColorEntry(key).Some? ==> IconEntry(key).Some?
  {
  }

  /** A trade unknown to the icon table is unknown to the colour table too, and gets both defaults. */
  lemma UnknownTradeGetsDefaults(trade: string)
    requires IconEntry(Lower(trade)).None?
    ensures TradeIcon(trade) == DefaultIcon && TradeColor(trade) == DefaultColor
  {
    ColorKeysHaveIcons(Lower(trade));
  }

  /** Trades with an icon but no colour entry (carpentry, flooring, masonry, welding) get their icon and the default colour. */
  lemma IconOnlyTrades(trade: string)
    requires Lower(trade) in {"carpenter", "carpentry", "flooring", "concrete", "mason", "welder", "welding"}
    ensures IconEntry(Lower(trade)).Some? && TradeIcon(trade) != DefaultIcon
    ensures ColorEntry(Lower(trade)).None? && TradeColor(trade) == DefaultColor
  {
  }

  // ---------------------------------------------------------------------
  // Card templates

  /** The placeholders a card template can contain. */
  datatype Slot =
    | BusinessNameSlot | TradeDescriptionSlot | PhoneSlot | EmailSlot | LocationSlot
    | LicenseTextSlot | TradeIconSlot | AccentColorSlot | WatermarkCssSlot | WatermarkHtmlSlot

  /** The slot's name, as written in the placeholder and used as the card-info key. */
  function SlotKey(s: Slot): (r: string)
    ensures |r| > 0 && ' ' !in r
  {
    match s
    case BusinessNameSlot => "business_name"
    case TradeDescriptionSlot => "trade_description"
    case PhoneSlot => "phone"
    case EmailSlot => "email"
    case LocationSlot => "location"
    case LicenseTextSlot => "license_text"
    case TradeIconSlot => "trade_icon"
    case AccentColorSlot => "accent_color"
    case WatermarkCssSlot => "watermark_css"
    case WatermarkHtmlSlot => "watermark_html"
  }

  /** Distinct slots have distinct names. */
  lemma SlotKeyInjective(a: Slot, b: Slot)
    ensures SlotKey(a) == SlotKey(b) ==> a == b
  {
  }

  /**
    `CARD_TEMPLATES["clean_professional"]`: a white card with an accent
    bar; the accent colour fills three slots (the last with a `15` alpha
    suffix), then the overlay CSS, the name block, the icon tile, the
    three contact lines and the overlay element.
   */
  const CleanProfessional: Template<Slot> := [
    Lit("<clean_professional: white card; left bar "), Hole(AccentColorSlot),
    Lit("; icon tile "), Hole(AccentColorSlot),
    Lit("; contact icons "), Hole(AccentColorSlot),
    Lit("15; "), Hole(WatermarkCssSlot),
    Lit(" card top: name "), Hole(BusinessNameSlot),
    Lit(" trade "), Hole(TradeDescriptionSlot),
    Lit(" license "), Hole(LicenseTextSlot),
    Lit(" icon tile "), Hole(TradeIconSlot),
    Lit(" contacts: phone "), Hole(PhoneSlot),
    Lit(" email "), Hole(EmailSlot),
    Lit(" location "), Hole(LocationSlot),
    Lit(" overlay "), Hole(WatermarkHtmlSlot),
    Lit(" end of card>")
  ]

  /**
    `CARD_TEMPLATES["dark_bold"]`: a dark gradient card; four accent
    slots (the first with a `15` alpha suffix), no icon.
   */
  const DarkBold: Template<Slot> := [
    Lit("<dark_bold: dark gradient card; glow "), Hole(AccentColorSlot),
    Lit("15; trade colour "), Hole(AccentColorSlot),
    Lit("; divider "), Hole(AccentColorSlot),
    Lit("; contact icons "), Hole(AccentColorSlot),
    Lit("; "), Hole(WatermarkCssSlot),
    Lit(" card: name "), Hole(BusinessNameSlot),
    Lit(" trade "), Hole(TradeDescriptionSlot),
    Lit(" license "), Hole(LicenseTextSlot),
    Lit(" divider, contacts: phone "), Hole(PhoneSlot),
    Lit(" email "), Hole(EmailSlot),
    Lit(" location "), Hole(LocationSlot),
    Lit(" overlay "), Hole(WatermarkHtmlSlot),
    Lit(" end of card>")
  ]

  /**
    `CARD_TEMPLATES["trade_badge"]`: a light card led by a round badge
    holding the trade icon; three accent slots (the second with a `40`
    alpha suffix).
   */
  const TradeBadge: Template<Slot> := [
    Lit("<trade_badge: light card; badge "), Hole(AccentColorSlot),
    Lit("; badge shadow "), Hole(AccentColorSlot),
    Lit("40; trade colour "), Hole(AccentColorSlot),
    Lit("; "), Hole(WatermarkCssSlot),
    Lit(" card: badge icon "), Hole(TradeIconSlot),
    Lit(" name "), Hole(BusinessNameSlot),
    Lit(" trade "), Hole(TradeDescriptionSlot),
    Lit(" license "), Hole(LicenseTextSlot),
    Lit(" contacts: phone "), Hole(PhoneSlot),
    Lit(" email "), Hole(EmailSlot),
    Lit(" location "), Hole(LocationSlot),
    Lit(" overlay "), Hole(WatermarkHtmlSlot),
    Lit(" end of card>")
  ]

  const DefaultTemplateName := "clean_professional"

  /** The names `CARD_TEMPLATES` has an entry for. */
  predicate KnownTemplate(name: string)
  {
    name == "clean_professional" || name == "dark_bold" || name == "trade_badge"
  }

  /** `CARD_TEMPLATES.get(name, CARD_TEMPLATES["clean_professional"])`. */
  function SelectTemplate(name: string): (t: Template<Slot>)
    ensures t == CleanProfessional || t == DarkBold || t == TradeBadge
  {
    if name == "dark_bold" then DarkBold
    else if name == "trade_badge" then TradeBadge
    else CleanProfessional
  }

  /** Each known name selects its own template; every other name selects the clean professional one. */
  lemma SelectTemplateByName(name: string)
    ensures name == "dark_bold" ==> SelectTemplate(name) == DarkBold
    ensures name == "trade_badge" ==> SelectTemplate(name) == TradeBadge
    ensures !KnownTemplate(name) ==> SelectTemplate(name) == SelectTemplate(DefaultTemplateName) == CleanProfessional
  {
  }

  const WatermarkCss: string :=
    "\n.watermark {\n"
    + "    position: absolute;\n"
    + "    top: 50%; left: 50%;\n"
    + "    transform: translate(-50%, -50%) rotate(-30deg);\n"
    + "    font-size: 48px;\n"
    + "    font-weight: 900;\n"
    + "    color: rgba(0,0,0,0.08);\n"
    + "    letter-spacing: 8px;\n"
    + "    text-transform: uppercase;\n"
    + "    white-space: nowrap;\n"
    + "    z-index: 10;\n"
    + "    pointer-events: none;\n"
    + "}\n"

  const WatermarkHtml: string := "<div class=\"watermark\">PREVIEW</div>"

  /** Every slot a card template can have. */
  const AllSlots: set<Slot> := {
    BusinessNameSlot, TradeDescriptionSlot, PhoneSlot, EmailSlot, LocationSlot,
    LicenseTextSlot, TradeIconSlot, AccentColorSlot, WatermarkCssSlot, WatermarkHtmlSlot
  }

  /** The two slots that carry the preview overlay. */
  const WatermarkSlots: set<Slot> := {WatermarkCssSlot, WatermarkHtmlSlot}

  /** Every value of `Slot` is one of the ten slots. */
  lemma AllSlotsComplete(s: Slot)
    ensures s in AllSlots
  {
  }

  /** Where each slot first occurs in the clean professional template. */
  function CleanProfessionalIndex(s: Slot): (i: nat)
    ensures i < |CleanProfessional| && CleanProfessional[i] == Hole(s)
  {
    match s
    case AccentColorSlot => 1
    case WatermarkCssSlot => 7
    case BusinessNameSlot => 9
    case TradeDescriptionSlot => 11
    case LicenseTextSlot => 13
    case TradeIconSlot => 15
    case PhoneSlot => 17
    case EmailSlot => 19
    case LocationSlot => 21
    case WatermarkHtmlSlot => 23
  }

  /** Where each slot first occurs in the trade badge template. */
  function TradeBadgeIndex(s: Slot): (i: nat)
    ensures i < |TradeBadge| && TradeBadge[i] == Hole(s)
  {
    match s
    case AccentColorSlot => 1
    case WatermarkCssSlot => 7
    case TradeIconSlot => 9
    case BusinessNameSlot => 11
    case TradeDescriptionSlot => 13
    case LicenseTextSlot => 15
    case PhoneSlot => 17
    case EmailSlot => 19
    case LocationSlot => 21
    case WatermarkHtmlSlot => 23
  }

  /** Where each slot but the icon first occurs in the dark bold template. */
  function DarkBoldIndex(s: Slot): (i: nat)
    requires s != TradeIconSlot
    ensures i < |DarkBold| && DarkBold[i] == Hole(s)
  {
    match s
    case AccentColorSlot => 1
    case WatermarkCssSlot => 9
    case BusinessNameSlot => 11
    case TradeDescriptionSlot => 13
    case LicenseTextSlot => 15
    case PhoneSlot => 17
    case EmailSlot => 19
    case LocationSlot => 21
    case WatermarkHtmlSlot => 23
  }

  /** The clean professional and trade badge templates use every slot; the dark one all but the icon. */
  lemma TemplateSlots()
    ensures forall s :: Hole(s) in CleanProfessional
    ensures forall s :: Hole(s) in TradeBadge
    ensures forall s :: Hole(s) in DarkBold <==> s != TradeIconSlot
  {
    forall s ensures Hole(s) in CleanProfessional && Hole(s) in TradeBadge {
      assert CleanProfessional[CleanProfessionalIndex(s)] == Hole(s);
      assert TradeBadge[TradeBadgeIndex(s)] == Hole(s);
    }
    forall s | s != TradeIconSlot ensures Hole(s) in DarkBold {
      assert DarkBold[DarkBoldIndex(s)] == Hole(s);
    }
    DarkBoldHasNoIcon();
  }

  /** The dark bold template has no icon slot. */
  lemma DarkBoldHasNoIcon()
    ensures Hole(TradeIconSlot) !in DarkBold
  {
  }

  // ---------------------------------------------------------------------
  // The substitution map

  /** The extracted card fields, as the dictionary the pipeline receives. */
  type CardInfo = map<string, string>

  /** `card_info.get(key, default)`. */
  function Field(info: CardInfo, key: string, default: string): (r: string)
    ensures key in info ==> r == info[key]
    ensures key !in info ==> r == default
  {
    if key in info then info[key] else default
  }

  /** The trade the icon and colour are derived from: "contractor" when none is given. */
  function CardTrade(info: CardInfo): (r: string)
  {
    Field(info, "trade", "contractor")
  }

  /** The slots filled from a card-info field (with a default when it is missing). */
  predicate IsTextSlot(slot: Slot)
  {
    slot !in WatermarkSlots && slot != TradeIconSlot
  }

  /** The default `card_info.get` falls back on for a text slot; the description and colour derive from the trade. */
  function TextDefault(trade: string, slot: Slot): (r: string)
    requires IsTextSlot(slot)
  {
    if slot == BusinessNameSlot then "Your Business Name"
    else if slot == TradeDescriptionSlot then Title(trade)
    else if slot == PhoneSlot then "(615) 555-0000"
    else if slot == EmailSlot then "info@example.com"
    else if slot == LocationSlot then "Nashville, TN"
    else if slot == LicenseTextSlot then "Licensed & Insured"
    else TradeColor(trade)
  }

  /** The value of a card slot other than the overlay: the supplied field or its default, or the icon derived from the trade. */
  function FieldValue(info: CardInfo, slot: Slot): (r: string)
    requires slot !in WatermarkSlots
  {
    if slot == TradeIconSlot then TradeIcon(CardTrade(info))
    else Field(info, SlotKey(slot), TextDefault(CardTrade(info), slot))
  }

  /** The value of an overlay slot: the watermark CSS or element for a preview, nothing otherwise. */
  function OverlayValue(watermark: bool, slot: Slot): (r: string)
    requires slot in WatermarkSlots
    ensures watermark <==> r != ""
  {
    if !watermark then "" else if slot == WatermarkCssSlot then WatermarkCss else WatermarkHtml
  }

  /** The value of one slot. */
  function SlotValue(info: CardInfo, watermark: bool, slot: Slot): (r: string)
  {
    if slot in WatermarkSlots then OverlayValue(watermark, slot) else FieldValue(info, slot)
  }

  /** The values substituted into a card template (`subs`), one per slot. */
  function Substitutions(info: CardInfo, watermark: bool): (m: map<Slot, string>)
    ensures m.Keys == AllSlots
    ensures forall s :: s in m
  {
    forall s: Slot ensures s in AllSlots {
      AllSlotsComplete(s);
    }
    map slot | slot in AllSlots :: SlotValue(info, watermark, slot)
  }

  /** Each slot's entry in the map is that slot's value. */
  lemma SubstitutionAt(info: CardInfo, watermark: bool, s: Slot)
    ensures Substitutions(info, watermark)[s] == SlotValue(info, watermark, s)
  {
    AllSlotsComplete(s);
  }

  /** Supplied text fields and accent colour are used as given; the icon is always derived from the trade. */
  lemma SuppliedFieldsWin(info: CardInfo, watermark: bool)
    ensures var m := Substitutions(info, watermark);
      && (forall s :: IsTextSlot(s) && SlotKey(s) in info ==> m[s] == info[SlotKey(s)])
      && m[TradeIconSlot] == TradeIcon(CardTrade(info))
  {
    var m := Substitutions(info, watermark);
    forall s | IsTextSlot(s) && SlotKey(s) in info
      ensures m[s] == info[SlotKey(s)]
    {
      SubstitutionAt(info, watermark, s);
    }
    SubstitutionAt(info, watermark, TradeIconSlot);
  }

  /** A missing text field takes its default. */
  lemma AbsentFieldsTakeDefaults(info: CardInfo, watermark: bool)
    ensures var m := Substitutions(info, watermark);
      forall s :: IsTextSlot(s) && SlotKey(s) !in info ==> m[s] == TextDefault(CardTrade(info), s)
  {
    var m := Substitutions(info, watermark);
    forall s | IsTextSlot(s) && SlotKey(s) !in info
      ensures m[s] == TextDefault(CardTrade(info), s)
    {
      SubstitutionAt(info, watermark, s);
    }
  }

  /** The documented defaults; the description defaults to the title-cased trade, the colour to the trade's. */
  lemma TextDefaultValues(trade: string)
    ensures TextDefault(trade, BusinessNameSlot) == "Your Business Name"
    ensures TextDefault(trade, TradeDescriptionSlot) == Title(trade)
    ensures TextDefault(trade, PhoneSlot) == "(615) 555-0000"
    ensures TextDefault(trade, EmailSlot) == "info@example.com"
    ensures TextDefault(trade, LocationSlot) == "Nashville, TN"
    ensures TextDefault(trade, LicenseTextSlot) == "Licensed & Insured"
    ensures TextDefault(trade, AccentColorSlot) == TradeColor(trade)
  {
  }

  /** With no trade at all the card is a contractor's: crane icon, slate accent, "Contractor" description. */
  lemma NoTradeMeansContractor(info: CardInfo, watermark: bool)
    requires "trade" !in info
    ensures var m := Substitutions(info, watermark);
      && m[TradeIconSlot] == "\U{1F3D7}\U{FE0F}"
      && ("accent_color" !in info ==> m[AccentColorSlot] == "#334155")
      && ("trade_description" !in info ==> m[TradeDescriptionSlot] == "Contractor")
  {
    NoTradeIcon(info, watermark);
    if "accent_color" !in info {
      NoTradeColor(info, watermark);
    }
    if "trade_description" !in info {
      NoTradeDescription(info, watermark);
    }
  }

  lemma NoTradeIcon(info: CardInfo, watermark: bool)
    requires "trade" !in info
    ensures Substitutions(info, watermark)[TradeIconSlot] == "\U{1F3D7}\U{FE0F}"
  {
    SubstitutionAt(info, watermark, TradeIconSlot);
    ContractorIcon();
  }

  lemma NoTradeColor(info: CardInfo, watermark: bool)
    requires "trade" !in info && "accent_color" !in info
    ensures Substitutions(info, watermark)[AccentColorSlot] == "#334155"
  {
    assert FieldValue(info, AccentColorSlot) == "#334155" by {
      assert CardTrade(info) == "contractor";
      assert TextDefault("contractor", AccentColorSlot) == TradeColor("contractor");
      ContractorColor();
    }
    SubstitutionAt(info, watermark, AccentColorSlot);
  }

  lemma NoTradeDescription(info: CardInfo, watermark: bool)
    requires "trade" !in info && "trade_description" !in info
    ensures Substitutions(info, watermark)[TradeDescriptionSlot] == "Contractor"
  {
    SubstitutionAt(info, watermark, TradeDescriptionSlot);
    ContractorTitle();
  }

  /** The contractor trade's own icon. */
  lemma ContractorIcon()
    ensures TradeIcon("contractor") == "\U{1F3D7}\U{FE0F}"
  {
    LowerNoUpper("contractor");
  }

  /** The contractor trade's own colour. */
  lemma ContractorColor()
    ensures TradeColor("contractor") == "#334155"
  {
    LowerNoUpper("contractor");
  }

  /** The contractor trade's title-cased name. */
  lemma ContractorTitle()
    ensures Title("contractor") == "Contractor"
  {
    var c := "contractor";
    assert forall i :: 0 <= i < |c| ==> IsLower(c[i]);
    TitleLowerWord(c);
    assert [UpperChar(c[0])] + c[1..] == "Contractor";
  }

  /** The overlay slots hold the watermark for a preview and nothing for a final card. */
  lemma WatermarkSlotValues(info: CardInfo)
    ensures Substitutions(info, true)[WatermarkCssSlot] == WatermarkCss
    ensures Substitutions(info, true)[WatermarkHtmlSlot] == WatermarkHtml
    ensures Substitutions(info, false)[WatermarkCssSlot] == ""
    ensures Substitutions(info, false)[WatermarkHtmlSlot] == ""
  {
    SubstitutionAt(info, true, WatermarkCssSlot);
    SubstitutionAt(info, true, WatermarkHtmlSlot);
    SubstitutionAt(info, false, WatermarkCssSlot);
    SubstitutionAt(info, false, WatermarkHtmlSlot);
  }

  /** The preview and final maps agree on every slot except the two overlay slots. */
  lemma PreviewAndFinalMapsAgree(info: CardInfo)
    ensures forall s :: s !in WatermarkSlots ==> Substitutions(info, true)[s] == Substitutions(info, false)[s]
  {
    forall s | s !in WatermarkSlots
      ensures Substitutions(info, true)[s] == Substitutions(info, false)[s]
    {
      SubstitutionAt(info, true, s);
      SubstitutionAt(info, false, s);
    }
  }

  /** The slot values as the field-to-value function `Format` takes. */
  function SlotValues(info: CardInfo, watermark: bool): (r: Slot -> string)
  {
    (s: Slot) => SlotValue(info, watermark, s)
  }

  /** The substitution map holds every slot, with that slot's value. */
  lemma SlotValuesAreTheMap(info: CardInfo, watermark: bool)
    ensures forall s :: s in Substitutions(info, watermark) && Substitutions(info, watermark)[s] == SlotValues(info, watermark)(s)
  {
    forall s ensures Substitutions(info, watermark)[s] == SlotValues(info, watermark)(s) {
      SubstitutionAt(info, watermark, s);
    }
  }

  // ---------------------------------------------------------------------
  // Rendering

  /** `generate_card_html`: the selected template with the substitution map applied. */
  function CardHtml(info: CardInfo, templateName: string, watermark: bool): (r: string)
    ensures r == Format(SelectTemplate(templateName), SlotValues(info, watermark))
  {
    SlotValuesAreTheMap(info, watermark);
    FormatIsFullSubstitution(SelectTemplate(templateName), SlotValues(info, watermark), Substitutions(info, watermark), SlotKey);
    SafeSubstitute(SelectTemplate(templateName), Substitutions(info, watermark), SlotKey)
  }

  /** An unknown template name renders exactly as the clean professional template. */
  lemma UnknownTemplateFallsBack(info: CardInfo, templateName: string, watermark: bool)
    requires !KnownTemplate(templateName)
    ensures CardHtml(info, templateName, watermark) == CardHtml(info, DefaultTemplateName, watermark)
  {
  }

  /** Every hole of every template is filled: no placeholder of a card template reaches the output. */
  lemma EveryHoleFilled(templateName: string, info: CardInfo, watermark: bool)
    ensures HoleNames(SelectTemplate(templateName)) <= Substitutions(info, watermark).Keys
  {
    forall s | s in HoleNames(SelectTemplate(templateName))
      ensures s in Substitutions(info, watermark).Keys
    {
      AllSlotsComplete(s);
    }
  }

  /**
    The final card is the preview card with the two overlay slots taken
    out of the template and everything else substituted identically.
   */
  lemma FinalIsPreviewWithoutOverlay(info: CardInfo, templateName: string)
    ensures CardHtml(info, templateName, false)
         == SafeSubstitute(WithoutHoles(SelectTemplate(templateName), WatermarkSlots), Substitutions(info, true), SlotKey)
  {
    var blank, m := Substitutions(info, false), Substitutions(info, true);
    forall n | n !in WatermarkSlots
      ensures n in blank && n in m && blank[n] == m[n]
    {
      AllSlotsComplete(n);
      PreviewAndFinalMapsAgree(info);
    }
    EmptySlotsAreDeleted(SelectTemplate(templateName), WatermarkSlots, blank, m, SlotKey);
  }

  // ---------------------------------------------------------------------
  // The redesign package

  const DefaultTemplateNames: seq<string> := ["clean_professional", "dark_bold", "trade_badge"]

  /** The default list names each template once. */
  lemma DefaultTemplateNamesAreTheTemplates()
    ensures |DefaultTemplateNames| == 3
    ensures forall n :: n in DefaultTemplateNames <==> KnownTemplate(n)
  {
  }

  const WatermarkDir := "assets/watermarked"
  const OutputDir := "assets/redesigns"

  /** `{safe_name}_{template}_{date}_{kind}.png`. */
  function RedesignFile(safeName: string, templateName: string, timestamp: string, kind: string): (r: string)
    ensures EndsWith(r, ".png")
  {
    EndsWithAppend(safeName + "_" + templateName + "_" + timestamp + "_" + kind, ".png");
    safeName + "_" + templateName + "_" + timestamp + "_" + kind + ".png"
  }

  /** The file name starts with the safe name and the template name, each followed by `_`. */
  lemma RedesignFileStartsWithNames(safeName: string, templateName: string, timestamp: string, kind: string)
    ensures var r := RedesignFile(safeName, templateName, timestamp, kind);
      && |r| == |safeName| + |templateName| + |timestamp| + |kind| + 7
      && r[..|safeName|] == safeName && r[|safeName|] == '_'
      && r[|safeName| + 1..|safeName| + 1 + |templateName|] == templateName
      && r[|safeName| + 1 + |templateName|] == '_'
  {
  }

  /** `path.with_suffix('.html')` for an image path: the HTML file saved beside it. */
  function HtmlSibling(pngPath: string): (r: string)
    requires EndsWith(pngPath, ".png")
    ensures |r| == |pngPath| + 1
  {
    pngPath[..|pngPath| - 4] + ".html"
  }

  /** The HTML file keeps the image's name and directory and ends in `.html`. */
  lemma HtmlSiblingName(pngPath: string)
    requires EndsWith(pngPath, ".png")
    ensures EndsWith(HtmlSibling(pngPath), ".html")
    ensures HtmlSibling(pngPath)[..|pngPath| - 4] == pngPath[..|pngPath| - 4]
    ensures HtmlSibling(pngPath) != pngPath
  {
    EndsWithAppend(pngPath[..|pngPath| - 4], ".html");
    assert HtmlSibling(pngPath)[|pngPath| - 3] == 'h';
  }

  /**
    What `render_card_to_image` reports for an image path: the image
    itself when the render succeeded, otherwise the HTML file it saved.
   */
  function RenderedPath(pngPath: string, rendered: bool): (r: string)
    requires EndsWith(pngPath, ".png")
    ensures EndsWith(r, ".png") || EndsWith(r, ".html")
  {
    HtmlSiblingName(pngPath);
    if rendered then pngPath else HtmlSibling(pngPath)
  }

  /** A successful render reports the image and only a failed one the HTML file, so the two outcomes are told apart. */
  lemma RenderedPathCases(pngPath: string, rendered: bool)
    requires EndsWith(pngPath, ".png")
    ensures rendered <==> RenderedPath(pngPath, rendered) == pngPath
    ensures !rendered <==> RenderedPath(pngPath, rendered) == HtmlSibling(pngPath)
  {
    HtmlSiblingName(pngPath);
  }

  /**
    An HTML page written to disk: the file, and the card it holds, named
    by its template and whether it carries the overlay. The page's text is
    `PageHtml` of the card information.
   */
  datatype CardPage = CardPage(path: string, template: string, watermark: bool)

  /** The text of a written page: the card it names, filled from `info`. */
  function PageHtml(info: CardInfo, page: CardPage): (r: string)
  {
    CardHtml(info, page.template, page.watermark)
  }

  /** One template's entry in the results: its name and the reported preview and final paths. */
  datatype Variant = Variant(template: string, preview: string, final: string)

  /** The preview image: `{safe_name}_{template}_{date}_preview.png` in the watermarked directory. */
  function PreviewPath(safeName: string, templateName: string, timestamp: string): (r: string)
    ensures EndsWith(r, ".png")
  {
    var file := RedesignFile(safeName, templateName, timestamp, "preview");
    assert (WatermarkDir + "/" + file)[|WatermarkDir| + 1..] == file;
    WatermarkDir + "/" + file
  }

  /** The final image: `{safe_name}_{template}_{date}_final.png` in the output directory. */
  function FinalPath(safeName: string, templateName: string, timestamp: string): (r: string)
    ensures EndsWith(r, ".png")
  {
    var file := RedesignFile(safeName, templateName, timestamp, "final");
    assert (OutputDir + "/" + file)[|OutputDir| + 1..] == file;
    OutputDir + "/" + file
  }

  /** The HTML page saved beside a preview: `{safe_name}_{template}_{date}_preview.html` in the watermarked directory. */
  lemma PreviewPageName(safeName: string, templateName: string, timestamp: string)
    ensures HtmlSibling(PreviewPath(safeName, templateName, timestamp))
         == WatermarkDir + "/" + safeName + "_" + templateName + "_" + timestamp + "_preview.html"
  {
    var stem := WatermarkDir + "/" + safeName + "_" + templateName + "_" + timestamp + "_preview";
    assert PreviewPath(safeName, templateName, timestamp) == stem + ".png";
    assert (stem + ".png")[..|stem|] == stem;
  }

  /** The preview and final images of one template are different files. */
  lemma PreviewAndFinalDiffer(safeName: string, templateName: string, timestamp: string)
    ensures PreviewPath(safeName, templateName, timestamp) != FinalPath(safeName, templateName, timestamp)
  {
    assert PreviewPath(safeName, templateName, timestamp)[7] == 'w';
    assert FinalPath(safeName, templateName, timestamp)[7] == 'r';
  }

  /** The entry for one template: a watermarked preview and a clean final card. */
  function VariantFor(safeName: string, templateName: string, timestamp: string, rendered: string -> bool): (r: Variant)
    ensures r.template == templateName
    ensures r.preview == PreviewPath(safeName, templateName, timestamp)
         || r.preview == HtmlSibling(PreviewPath(safeName, templateName, timestamp))
    ensures r.final == FinalPath(safeName, templateName, timestamp)
         || r.final == HtmlSibling(FinalPath(safeName, templateName, timestamp))
  {
    var previewPath := PreviewPath(safeName, templateName, timestamp);
    var finalPath := FinalPath(safeName, templateName, timestamp);
    Variant(templateName, RenderedPath(previewPath, rendered(previewPath)), RenderedPath(finalPath, rendered(finalPath)))
  }

  /** The two pages saved for one template: the watermarked card beside the preview, the clean card beside the final. */
  function PagesFor(safeName: string, templateName: string, timestamp: string): (r: seq<CardPage>)
    ensures |r| == 2
  {
    [ CardPage(HtmlSibling(PreviewPath(safeName, templateName, timestamp)), templateName, true),
      CardPage(HtmlSibling(FinalPath(safeName, templateName, timestamp)), templateName, false) ]
  }

  /**
    The two pages of a template go to different `.html` files, the first
    beside the preview image holding the watermarked card, the second
    beside the final image holding the clean one.
   */
  lemma PagesForFiles(safeName: string, templateName: string, timestamp: string)
    ensures var pages := PagesFor(safeName, templateName, timestamp);
      && pages[0].path != pages[1].path
      && pages[0].path == HtmlSibling(PreviewPath(safeName, templateName, timestamp))
      && pages[1].path == HtmlSibling(FinalPath(safeName, templateName, timestamp))
      && EndsWith(pages[0].path, ".html") && EndsWith(pages[1].path, ".html")
      && pages[0].template == pages[1].template == templateName
      && pages[0].watermark && !pages[1].watermark
  {
    var p := PreviewPath(safeName, templateName, timestamp);
    var f := FinalPath(safeName, templateName, timestamp);
    PreviewAndFinalDiffer(safeName, templateName, timestamp);
    HtmlSiblingName(p);
    HtmlSiblingName(f);
    assert p == p[..|p| - 4] + ".png";
    assert f == f[..|f| - 4] + ".png";
  }

  /** The entries for a list of templates, in list order. */
  function Variants(safeName: string, names: seq<string>, timestamp: string, rendered: string -> bool): (r: seq<Variant>)
    ensures |r| == |names|
  {
    if names == [] then []
    else Variants(safeName, names[..|names| - 1], timestamp, rendered) + [VariantFor(safeName, names[|names| - 1], timestamp, rendered)]
  }

  /** The pages saved for a list of templates, two per template, in list order. */
  function Pages(safeName: string, names: seq<string>, timestamp: string): (r: seq<CardPage>)
    ensures |r| == 2 * |names|
  {
    if names == [] then []
    else Pages(safeName, names[..|names| - 1], timestamp) + PagesFor(safeName, names[|names| - 1], timestamp)
  }

  /** Entry `i` belongs to template `i` and reports its two images. */
  lemma {:induction false} VariantsAt(safeName: string, names: seq<string>, timestamp: string, rendered: string -> bool, i: nat)
    requires i < |names|
    ensures Variants(safeName, names, timestamp, rendered)[i] == VariantFor(safeName, names[i], timestamp, rendered)
  {
    if i < |names| - 1 {
      VariantsAt(safeName, names[..|names| - 1], timestamp, rendered, i);
    }
  }

  /** Pages `2i` and `2i + 1` are the preview and final pages of template `i`. */
  lemma {:induction false} PagesAt(safeName: string, names: seq<string>, timestamp: string, i: nat)
    requires i < |names|
    ensures Pages(safeName, names, timestamp)[2 * i] == PagesFor(safeName, names[i], timestamp)[0]
    ensures Pages(safeName, names, timestamp)[2 * i + 1] == PagesFor(safeName, names[i], timestamp)[1]
  {
    if i < |names| - 1 {
      PagesAt(safeName, names[..|names| - 1], timestamp, i);
    }
  }

  /** The page written for template `i` holds its card with the overlay, the next one the card without it. */
  lemma PagesHold(info: CardInfo, safeName: string, names: seq<string>, timestamp: string)
    ensures forall i :: 0 <= i < |names| ==>
      && PageHtml(info, Pages(safeName, names, timestamp)[2 * i]) == CardHtml(info, names[i], true)
      && PageHtml(info, Pages(safeName, names, timestamp)[2 * i + 1]) == CardHtml(info, names[i], false)
  {
    forall i | 0 <= i < |names|
      ensures PageHtml(info, Pages(safeName, names, timestamp)[2 * i]) == CardHtml(info, names[i], true)
      ensures PageHtml(info, Pages(safeName, names, timestamp)[2 * i + 1]) == CardHtml(info, names[i], false)
    {
      PagesAt(safeName, names, timestamp, i);
    }
  }

  /**
    `generate_redesign`: one variant per template name, in the order given
    (all three templates when none are given), file names built from the
    prospect's safe name and the date stamp (`%Y%m%d`) supplied by the
    caller; `rendered` says which image renders succeed. `saved` lists the
    HTML pages written along the way, two per template.
   */
  method GenerateRedesign(info: CardInfo, prospectName: string, templates: Option<seq<string>>, timestamp: string,
                          rendered: string -> bool)
    returns (results: seq<Variant>, saved: seq<CardPage>)
    ensures results == Variants(SafeName(prospectName), templates.GetOr(DefaultTemplateNames), timestamp, rendered)
    ensures saved == Pages(SafeName(prospectName), templates.GetOr(DefaultTemplateNames), timestamp)
    ensures forall i :: 0 <= i < |templates.GetOr(DefaultTemplateNames)| ==>
      && PageHtml(info, saved[2 * i]) == CardHtml(info, templates.GetOr(DefaultTemplateNames)[i], true)
      && PageHtml(info, saved[2 * i + 1]) == CardHtml(info, templates.GetOr(DefaultTemplateNames)[i], false)
  {
    var names := if templates.None? then DefaultTemplateNames else templates.value;
    var safeName := SafeName(prospectName);
    results := [];
    saved := [];
    for i := 0 to |names|
      invariant results == Variants(safeName, names[..i], timestamp, rendered)
      invariant saved == Pages(safeName, names[..i], timestamp)
    {
      var name := names[i];
      var previewPath := PreviewPath(safeName, name, timestamp);
      var previewResult := RenderedPath(previewPath, rendered(previewPath));
      var finalPath := FinalPath(safeName, name, timestamp);
      var finalResult := RenderedPath(finalPath, rendered(finalPath));
      assert names[..i + 1][..i] == names[..i];
      results := results + [Variant(name, previewResult, finalResult)];
      saved := saved + [CardPage(HtmlSibling(previewPath), name, true), CardPage(HtmlSibling(finalPath), name, false)];
    }
    assert names[..|names|] == names;
    PagesHold(info, safeName, names, timestamp);
  }
}
