# Design arbitrage scripts: the prospect store, the card redesign and the DM simulation

This project models the three pieces of logic the design-arbitrage scripts are
built around, and proves what they promise.

**The prospect store of the Facebook group monitor** (`scripts/fb-group-monitor.py`)
- Records and the store:
  - The store is a document: an ordered list of prospect records plus three counters (`total_found`, `contacted`, `converted`).
  - `add` appends a record with id `length + 1` and status `new`.
  - `update` finds the first record with an id and sets its status. Entering `contacted` stamps the contacted date and bumps its counter. Entering `converted` stamps the converted date, sets the revenue to 50 and bumps its counter. Repeated entries raise the counters again.
- Both forms are modelled:
  - pure functions over the document (`LoadDocument`, `Added`, `AfterUpdate`);
  - a class `ProspectDb` whose methods update the loaded document in place, as the script does, and are proved equal to those functions.
- The store invariant `Consistent` says:
  - ids are `1..N` in order;
  - `total_found == N`;
  - revenue is set exactly on converted records;
  - the counters are at least the number of stamped records.
  - It holds after every sequence of adds and updates from the empty store.
- The read-only views are also modelled: the `list` filter, the daily report, the tier filter of the monitored groups and the screenshot file name.

**The card redesign pipeline** (`scripts/redesign-pipeline.py`)
- Icon and accent colour come from case-insensitive tables, with their default entries.
- There are three card templates; an unknown name falls back to `clean_professional`.
- The substitution map is built with its per-field defaults.
- `string.Template.safe_substitute` is modelled over templates made of literal pieces (`Lit`) and holes (`Hole`):
  - a mapped hole is replaced exactly once;
  - an unmapped hole is left as written;
  - substitution never fails.
- The preview and final cards differ only in the two overlay slots.
- `generate_redesign` loops over the template names. For each it produces the preview and final image paths `{safe_name}_{template}_{date}_{preview|final}.png` and the pair of HTML pages it writes.

**The DM simulation** (`scripts/simulate-dm.py`)
- `simulate_all` walks the prospects in order and skips every one that is not `new`.
- For each other prospect it formats template A with:
  - the display name;
  - the group;
  - the trade;
  - the preview pattern `{safe_name}_clean_professional_*_preview.html`;
  - the payment link.
- It names the saved file `dm_{safe_name}_{date}.txt`.
- Its safe name also drops apostrophes, unlike the redesign's. So for every name with an apostrophe the preview pattern does not name the page the redesign saved, whatever the date (`SimulateDm.ApostropheMissesPreviewPage`); for "Joe's" the two stems are "joe's" and "joes" (`SimulateDm.ApostropheSplitsTheStems`). The model keeps both behaviours as written.

**Modules**
- `Wrappers`: `Option`.
- `Text`: ASCII `lower`, `title`, one-character `replace`, the removal of a character (`replace(c, "")`), the safe name, `endswith`, substring.
- `Collections`: order-preserving filters, the model of list comprehensions.
- `CardTemplate`: `safe_substitute` and `str.format` over `Lit`/`Hole` templates.
- `ProspectStore`, `ProspectViews`: the group monitor.
- `Redesign`: the redesign pipeline.
- `SimulateDm`: the DM simulation.

**Clocks, files and outcomes as parameters**
- Dates and timestamps are parameters (`today`, `timestamp`).
- A stored JSON file is an `Option` of the document: `None` when there is no file.
- Whether a headless render succeeds is the parameter `rendered`.

## Model

| member | source | states |
|---|---|---|
| ProspectStore.StatusName | scripts/fb-group-monitor.py:280 | each of the five statuses the `update` command accepts has a non-empty stored name |
| ProspectStore.StatusNameInjective | scripts/fb-group-monitor.py:280 | two statuses have the same stored name if and only if they are the same status, so filtering by name is filtering by status |
| ProspectStore.LoadDocument | scripts/fb-group-monitor.py:100-104 | a persisted document is loaded as it is; with no file the store has no records, all three counters are 0, and it satisfies the store invariant |
| ProspectStore.NewProspect | scripts/fb-group-monitor.py:116-130 | the added record carries exactly the given fields, status `new`, found date today, no contacted or converted date and revenue 0 |
| ProspectStore.Added | scripts/fb-group-monitor.py:113-135 | `add` appends exactly one record at the end with id old length + 1; the old records are an untouched prefix; `total_found` rises by one and the other counters are unchanged |
| ProspectStore.FirstIndexOf | scripts/fb-group-monitor.py:233-234 | the search finds nothing exactly when no record has the id; otherwise it finds a record with that id and no record before it has the id |
| ProspectStore.ApplyStatus | scripts/fb-group-monitor.py:235-243 | the record's status becomes the new one; `contacted` stamps the contacted date; `converted` stamps the converted date and sets revenue 50; any other status changes the status field only; every other field of the record is unchanged |
| ProspectStore.CountersAfter | scripts/fb-group-monitor.py:237-243 | entering `contacted` or `converted` raises that counter by one on every entry, repeats included; `total_found` never changes |
| ProspectStore.AfterUpdate | scripts/fb-group-monitor.py:230-247 | `update` of an id no record has saves nothing; otherwise only the first record with that id changes (by `ApplyStatus`), the list length is kept and the counters move by `CountersAfter` |
| ProspectStore.AddedPreservesConsistent | scripts/fb-group-monitor.py:117-132 | `add` keeps the store invariant, in particular ids `1..N` and `total_found == N` |
| ProspectStore.AfterUpdatePreservesConsistent | scripts/fb-group-monitor.py:233-246 | `update` keeps the store invariant for every target status, however often it is entered |
| ProspectStore.UpdateTargetsIdMinusOne | scripts/fb-group-monitor.py:233-234 | in a consistent store the record with id n is found at index n - 1, and an id outside `1..N` is not found |
| ProspectStore.FirstIndexOfDependsOnIds | scripts/fb-group-monitor.py:233-234 | the search depends on the ids alone, so an update does not move the record a later update with the same id finds |
| ProspectStore.ContactedTwiceCountsTwice | scripts/fb-group-monitor.py:237-239 | two updates to `contacted` of one record raise the contacted counter by two and leave the later date in the record |
| ProspectStore.AddAllAppends | scripts/fb-group-monitor.py:113-135 | after n adds the old records are a prefix, the k-th new record carries the k-th request with id old length + k + 1, and `total_found` is n higher |
| ProspectStore.AddsFromEmpty | scripts/fb-group-monitor.py:117-132 | from the empty store, n adds give n records with ids exactly `1..n` in order, all `new`, named as requested, and `total_found == n` |
| ProspectStore.RunPreservesConsistent | scripts/fb-group-monitor.py:113-247 | any sequence of adds and updates (found or not) keeps the store invariant |
| ProspectStore.ReachableIsConsistent | scripts/fb-group-monitor.py:100-104 | every store reached from the empty store by adds and updates satisfies the invariant |
| ProspectStore.JoeSmithScenario | scripts/fb-group-monitor.py:230-243 | adding one plumber to an empty store, then marking it contacted and converted, gives id 1, the contacted date, revenue 50 and counters 1 and 1 |
| ProspectStore.ProspectDb.Load | scripts/fb-group-monitor.py:100-104 | the in-memory store holds exactly the loaded document |
| ProspectStore.ProspectDb.AddProspect | scripts/fb-group-monitor.py:113-135 | the in-place append returns the new record and leaves the store equal to `Added` of the old one, keeping the invariant |
| ProspectStore.ProspectDb.UpdateStatus | scripts/fb-group-monitor.py:230-247 | the scan reports found if and only if some record has the id; when found the store becomes `AfterUpdate` of the old one, otherwise nothing changes; the invariant is kept |
| ProspectViews.WithStatus | scripts/fb-group-monitor.py:193-195 | the records with a given status, as an order-preserving subsequence that keeps every occurrence of each such record and nothing else |
| ProspectViews.WithStatusStep | scripts/fb-group-monitor.py:193-195 | the first record counts towards its own status and no other |
| ProspectViews.ListProspects | scripts/fb-group-monitor.py:214-219 | with a non-empty status, exactly the records whose stored status equals it, as an order-preserving subsequence that keeps every occurrence of each; with no status, every record |
| ProspectViews.ListByStatusName | scripts/fb-group-monitor.py:218-219 | listing by a status's own name is the status filter |
| ProspectViews.ListUnknownStatusIsEmpty | scripts/fb-group-monitor.py:218-223 | a status name that is none of the five lists no record |
| ProspectViews.RevenueIsPricePerConversion | scripts/fb-group-monitor.py:205 | when every record is consistent, the revenue sum is 50 times the number of converted records |
| ProspectViews.StatusCountsPartition | scripts/fb-group-monitor.py:193-195 | the five per-status counts add up to the number of records |
| ProspectViews.StatusImpliesStamp | scripts/fb-group-monitor.py:194-195 | when every record with a status carries a stamp, there are no more such records than stamped ones |
| ProspectViews.FoundOn | scripts/fb-group-monitor.py:192 | the records found today are the store's records whose found date is today, in list order, each as often as it occurs |
| ProspectViews.DailyReport | scripts/fb-group-monitor.py:187-211 | the report gives the date, `total_found`, the number of records found today, the numbers of `new`, `contacted` and `converted` records (together at most the number of records) and the revenue sum; "ready to contact" is the first five `new` records (all of them when there are fewer) |
| ProspectViews.ReportAgreesWithCounters | scripts/fb-group-monitor.py:201-205 | on a consistent store the reported total is the number of records, the revenue is 50 per converted record, and the current contacted and converted figures never exceed the counters |
| ProspectViews.DefaultConfig | scripts/fb-group-monitor.py:29-82 | the seven default groups with their URLs, tiers and frequencies, and the sixteen keywords (both counts are stated by LoadConfig) |
| ProspectViews.LoadConfig | scripts/fb-group-monitor.py:85-91 | a persisted configuration is used as it is; with no file the default configuration with its seven groups and sixteen keywords |
| ProspectViews.GroupsToOpen | scripts/fb-group-monitor.py:141-143 | with a tier given, the groups of that tier in configuration order, a repeated group as often as it is listed; with none, every group |
| ProspectViews.ScreenshotFileCollides | scripts/fb-group-monitor.py:169-171 | at one timestamp two prospects share a screenshot file exactly when their safe names agree |
| ProspectViews.ScreenshotFile | scripts/fb-group-monitor.py:169-170 | the screenshot file is the safe name, `_`, the timestamp and `.png`, with each part at its place |
| ProspectViews.ScreenshotPath | scripts/fb-group-monitor.py:171 | the screenshot path is the screenshots directory, `/` and the screenshot file, ending in `.png` |
| ProspectViews.SumRevenue | scripts/fb-group-monitor.py:205 | the revenue sum adds every record's revenue: it is never negative when no revenue is, and 0 when every revenue is 0 |
| Text.Lower | scripts/redesign-pipeline.py:277 | lowering keeps the length and lowers each character in place |
| Text.LowerIdempotent | scripts/redesign-pipeline.py:277 | lowering twice is lowering once |
| Text.LowerIgnoresCase | scripts/redesign-pipeline.py:276-280 | strings that differ only in letter case lower to the same string |
| Text.LowerNoUpper | scripts/redesign-pipeline.py:277 | a string without capitals is its own lower case |
| Text.Title | scripts/redesign-pipeline.py:292 | title case keeps the length and every character that is not a letter |
| Text.TitleFromAt | scripts/redesign-pipeline.py:292 | the left-to-right scan of `title` capitalises a letter exactly when the character before it is not a letter |
| Text.TitleIsScan | scripts/redesign-pipeline.py:292 | the positional definition of title case and the left-to-right scan agree |
| Text.TitleLowerWord | scripts/redesign-pipeline.py:292 | a lower-case word is title-cased by capitalising its first letter |
| Text.ReplaceChar | scripts/fb-group-monitor.py:170 | replacing one character by another keeps the length and changes exactly the occurrences of that character |
| Text.RemoveChar | scripts/simulate-dm.py:53 | removing a character never lengthens the string, leaves no occurrence of it, and keeps exactly the other characters |
| Text.RemoveCharKeepsOrder | scripts/simulate-dm.py:53 | the kept characters stay in their order |
| Text.RemoveCharLength | scripts/simulate-dm.py:53 | the result is shorter by exactly the number of occurrences removed, so every other character is kept |
| Text.RemoveCharBreaksPrefix | scripts/simulate-dm.py:53 | a string with a character removed, followed by text without that character, never begins the original string followed by anything |
| Text.RemoveAbsentChar | scripts/simulate-dm.py:53 | removing a character that does not occur changes nothing |
| Text.SafeName | scripts/redesign-pipeline.py:349 | the safe name is as long as the name |
| Text.SafeNameChars | scripts/redesign-pipeline.py:349 | the safe name has no space and no capital: each space became `_` and each other character its lower case |
| Collections.Filter | scripts/fb-group-monitor.py:219 | the comprehension keeps exactly the elements satisfying the condition, in order, as a subsequence |
| Collections.FilterCounts | scripts/fb-group-monitor.py:219 | the comprehension keeps every occurrence of a kept element and none of the others |
| Collections.Take | scripts/fb-group-monitor.py:210 | the slice `[:n]` is a prefix of length min(n, length) |
| Collections.FilterMap | scripts/simulate-dm.py:49-64 | a skip-or-produce loop yields one output per kept element |
| Collections.FilterMapAt | scripts/simulate-dm.py:49-51 | the k-th output is produced from the k-th kept element |
| CardTemplate.SafeSubstitute | scripts/redesign-pipeline.py:305 | `safe_substitute`: its meaning is stated by the lemmas below (piece by piece, mapped holes replaced once, others kept verbatim) |
| CardTemplate.Format | scripts/simulate-dm.py:58-64 | `str.format` with every field supplied: its meaning is stated by FormatAppend, FormatShowsHole and FormatPrefix, and FormatIsFullSubstitution relates it to `safe_substitute` |
| CardTemplate.Placeholder | scripts/redesign-pipeline.py:304-305 | a placeholder is `${`, the name and `}` |
| CardTemplate.SubstituteAppend | scripts/redesign-pipeline.py:304-305 | substitution works piece by piece: an inserted value is never read as a placeholder again |
| CardTemplate.SubstituteNothing | scripts/redesign-pipeline.py:304-305 | with nothing supplied every placeholder stays as written and the output is the template text |
| CardTemplate.SubstituteDependsOnHoles | scripts/redesign-pipeline.py:304-305 | only the values of the template's own holes affect the output |
| CardTemplate.HoleOutput | scripts/redesign-pipeline.py:304-305 | a mapped hole becomes exactly its value; an unmapped one is left verbatim |
| CardTemplate.FilledHolesLeaveNoPlaceholder | scripts/redesign-pipeline.py:304-305 | when every hole is mapped, the placeholder spelling no longer matters: no placeholder reaches the output |
| CardTemplate.EmptySlotsAreDeleted | scripts/redesign-pipeline.py:299-305 | mapping some holes to the empty string gives the same text as deleting those holes |
| CardTemplate.WithoutHoles | scripts/redesign-pipeline.py:299-300 | deleting the holes of some names leaves exactly the other names' holes |
| CardTemplate.FormatAppend | scripts/simulate-dm.py:58-64 | `str.format` works piece by piece |
| CardTemplate.FormatIsFullSubstitution | scripts/simulate-dm.py:58-64 | with every field supplied, `format` and `safe_substitute` give the same text |
| CardTemplate.FormatShowsHole | scripts/simulate-dm.py:58-64 | each field's value occurs in the output right after the formatted text before it |
| CardTemplate.FormatPrefix | scripts/simulate-dm.py:58-64 | the output begins with the formatted text of any prefix of the template |
| Redesign.IconEntry | scripts/redesign-pipeline.py:231-254 | every entry of the icon table is a non-empty icon, and the `default` key holds the hammer |
| Redesign.ColorEntry | scripts/redesign-pipeline.py:257-273 | every entry of the colour table is a `#rrggbb` colour (`#` and six lower-case hexadecimal digits), and the `default` key holds `#2563eb` |
| Redesign.TradeIcon | scripts/redesign-pipeline.py:276-277 | every trade gets a non-empty icon |
| Redesign.TradeColor | scripts/redesign-pipeline.py:279-280 | every trade gets a `#rrggbb` colour: `#` and six lower-case hexadecimal digits |
| Redesign.TradeLookupIgnoresCase | scripts/redesign-pipeline.py:276-280 | trades equal up to letter case get the same icon and colour |
| Redesign.LowerCasedTradeLooksUpTheSame | scripts/redesign-pipeline.py:276-280 | looking up the lower-cased trade gives the same icon and colour as the trade itself |
| Redesign.TradeLookupUsesTable | scripts/redesign-pipeline.py:276-280 | a trade in a table gets its entry; any other trade gets the table's `default` entry |
| Redesign.ElectricianAnyCase | scripts/redesign-pipeline.py:231-280 | `electrician` in any letter case gets the lightning icon and `#f59e0b` |
| Redesign.ColorKeysHaveIcons | scripts/redesign-pipeline.py:231-273 | every trade with a colour has an icon |
| Redesign.UnknownTradeGetsDefaults | scripts/redesign-pipeline.py:253-280 | a trade the icon table lacks gets the hammer and `#2563eb` |
| Redesign.IconOnlyTrades | scripts/redesign-pipeline.py:246-273 | carpentry, flooring, masonry and welding trades get their own icon but the default colour |
| Redesign.SlotKey | scripts/redesign-pipeline.py:290-301 | every slot has a non-empty key without spaces |
| Redesign.SlotKeyInjective | scripts/redesign-pipeline.py:290-301 | distinct slots have distinct keys |
| Redesign.SelectTemplate | scripts/redesign-pipeline.py:285 | every name selects one of the three card templates |
| Redesign.SelectTemplateByName | scripts/redesign-pipeline.py:285 | `dark_bold` and `trade_badge` select their own templates; every other name selects the clean professional one |
| Redesign.AllSlotsComplete | scripts/redesign-pipeline.py:290-301 | the substitution map has all ten slots |
| Redesign.CleanProfessionalIndex | scripts/redesign-pipeline.py:32-98 | each slot has a placeholder in the clean professional template |
| Redesign.DarkBoldIndex | scripts/redesign-pipeline.py:99-152 | each slot but the icon has a placeholder in the dark bold template |
| Redesign.TradeBadgeIndex | scripts/redesign-pipeline.py:154-209 | each slot has a placeholder in the trade badge template |
| Redesign.CleanProfessional | scripts/redesign-pipeline.py:32-97 | the clean professional template, abbreviated, with its placeholders in the source's order (stated by CleanProfessionalIndex) |
| Redesign.DarkBold | scripts/redesign-pipeline.py:99-153 | the dark template, abbreviated, with its placeholders in the source's order (stated by DarkBoldIndex) |
| Redesign.TradeBadge | scripts/redesign-pipeline.py:154-209 | the badge template, abbreviated, with its placeholders in the source's order (stated by TradeBadgeIndex) |
| Redesign.WatermarkCss | scripts/redesign-pipeline.py:213-227 | the overlay CSS, copied in full |
| Redesign.WatermarkHtml | scripts/redesign-pipeline.py:228 | the overlay element |
| Redesign.TemplateSlots | scripts/redesign-pipeline.py:31-210 | the clean professional and trade badge templates use every slot; the dark one uses exactly those other than the icon |
| Redesign.DarkBoldHasNoIcon | scripts/redesign-pipeline.py:99-153 | the dark bold template has no icon placeholder |
| Redesign.CardTrade | scripts/redesign-pipeline.py:287 | the trade the defaults derive from is the supplied trade, or "contractor" when none is given (stated by NoTradeMeansContractor) |
| Redesign.TextDefault | scripts/redesign-pipeline.py:291-298 | the default of each text slot; the values are stated by TextDefaultValues |
| Redesign.FieldValue | scripts/redesign-pipeline.py:291-298 | the value of a non-overlay slot: the supplied field or its default, and the icon from the trade (stated by SuppliedFieldsWin and AbsentFieldsTakeDefaults) |
| Redesign.OverlayValue | scripts/redesign-pipeline.py:299-300 | an overlay slot is non-empty exactly when the card is a preview |
| Redesign.SlotValue | scripts/redesign-pipeline.py:290-301 | the value of any slot; SubstitutionAt and SlotValuesAreTheMap state that it is the map's entry |
| Redesign.Field | scripts/redesign-pipeline.py:291-298 | `card_info.get` gives the supplied value, or the default when the key is missing |
| Redesign.Substitutions | scripts/redesign-pipeline.py:290-301 | the map has exactly the ten slots |
| Redesign.SubstitutionAt | scripts/redesign-pipeline.py:290-301 | each slot's entry is that slot's value |
| Redesign.SuppliedFieldsWin | scripts/redesign-pipeline.py:291-298 | supplied text fields and a supplied accent colour are used as given; the icon is always derived from the trade |
| Redesign.AbsentFieldsTakeDefaults | scripts/redesign-pipeline.py:291-298 | a missing text field takes its default |
| Redesign.TextDefaultValues | scripts/redesign-pipeline.py:291-298 | the defaults are "Your Business Name", the title-cased trade, "(615) 555-0000", "info@example.com", "Nashville, TN", "Licensed & Insured" and the trade's colour |
| Redesign.NoTradeMeansContractor | scripts/redesign-pipeline.py:287-298 | without a trade the card gets the crane icon, `#334155` unless a colour is supplied, and "Contractor" unless a description is supplied |
| Redesign.ContractorIcon | scripts/redesign-pipeline.py:245 | the contractor trade's icon is the crane |
| Redesign.ContractorColor | scripts/redesign-pipeline.py:271 | the contractor trade's colour is `#334155` |
| Redesign.ContractorTitle | scripts/redesign-pipeline.py:292 | "contractor" title-cases to "Contractor" |
| Redesign.WatermarkSlotValues | scripts/redesign-pipeline.py:299-300 | a preview fills the overlay slots with the watermark CSS and element; a final card fills them with nothing |
| Redesign.PreviewAndFinalMapsAgree | scripts/redesign-pipeline.py:290-301 | the preview and final maps agree on every slot except the two overlay slots |
| Redesign.SlotValuesAreTheMap | scripts/redesign-pipeline.py:290-301 | the substitution map holds every slot with that slot's value |
| Redesign.CardHtml | scripts/redesign-pipeline.py:283-305 | the card is the selected template with every placeholder replaced by its slot's value and every literal piece copied, so no placeholder is left |
| Redesign.UnknownTemplateFallsBack | scripts/redesign-pipeline.py:285 | an unknown template name renders exactly as the clean professional template |
| Redesign.EveryHoleFilled | scripts/redesign-pipeline.py:290-305 | every placeholder of every template is in the map, so none survives substitution |
| Redesign.FinalIsPreviewWithoutOverlay | scripts/redesign-pipeline.py:355-360 | the final card is the preview card's template with the two overlay slots deleted and everything else filled identically |
| Redesign.DefaultTemplateNamesAreTheTemplates | scripts/redesign-pipeline.py:346-347 | the default list names the three templates, each once |
| Redesign.RedesignFile | scripts/redesign-pipeline.py:356-361 | a redesign file name ends in `.png` |
| Redesign.RedesignFileStartsWithNames | scripts/redesign-pipeline.py:349-361 | a redesign file name starts with the safe name and the template name, each followed by `_` |
| Redesign.HtmlSiblingName | scripts/redesign-pipeline.py:310 | the HTML page keeps the image's name and directory, ends in `.html` and is a different file |
| Redesign.HtmlSibling | scripts/redesign-pipeline.py:310 | the HTML page's path is one character longer than the image's: `.png` becomes `.html` |
| Redesign.RenderedPath | scripts/redesign-pipeline.py:336-341 | the reported path is an image (`.png`) or an HTML page (`.html`) |
| Redesign.RenderedPathCases | scripts/redesign-pipeline.py:336-341 | a render reports the image if and only if it succeeded, and the HTML file if and only if it failed |
| Redesign.PreviewPath | scripts/redesign-pipeline.py:356 | the preview image path ends in `.png` |
| Redesign.FinalPath | scripts/redesign-pipeline.py:361 | the final image path ends in `.png` |
| Redesign.PreviewPageName | scripts/redesign-pipeline.py:310 | the page saved beside a preview is `{safe_name}_{template}_{date}_preview.html` in the watermarked directory |
| Redesign.PreviewAndFinalDiffer | scripts/redesign-pipeline.py:356-361 | the preview and final images of one template are different files |
| Redesign.PagesFor | scripts/redesign-pipeline.py:355-362 | two pages are saved per template |
| Redesign.PagesForFiles | scripts/redesign-pipeline.py:355-362 | the two pages of a template go to different `.html` files beside its two images: the watermarked card beside the preview, the clean card beside the final |
| Redesign.VariantFor | scripts/redesign-pipeline.py:353-368 | a template's result carries its name, and reports the preview image or the page beside it and the final image or the page beside it |
| Redesign.Variants | scripts/redesign-pipeline.py:353-368 | there is one result per template name |
| Redesign.Pages | scripts/redesign-pipeline.py:353-362 | two pages are saved per template name |
| Redesign.VariantsAt | scripts/redesign-pipeline.py:353-368 | result i belongs to template i and reports its preview and final images |
| Redesign.PagesAt | scripts/redesign-pipeline.py:353-362 | pages 2i and 2i + 1 are the preview and final pages of template i |
| Redesign.GenerateRedesign | scripts/redesign-pipeline.py:344-371 | the loop returns one result per template name in input order (the three templates by default) and saves the two pages of each: page 2i holds template i's card with the overlay, page 2i+1 the same card without it |
| Redesign.PageHtml | scripts/redesign-pipeline.py:355-360 | the text of a written page: the card its descriptor names, filled from the card information (tied to the loop by PagesHold) |
| Redesign.PagesHold | scripts/redesign-pipeline.py:355-360 | the text of page 2i is the card of template i with the overlay, and that of page 2i+1 the card without it |
| SimulateDm.TemplateA | scripts/simulate-dm.py:17-29 | the message text in full, split at its five fields (stated by TemplateAHoles and MessageMentions) |
| SimulateDm.StripeLink | scripts/simulate-dm.py:47 | the payment link written into every message |
| SimulateDm.IsNew | scripts/simulate-dm.py:50 | a prospect is simulated exactly when its status is `new` (stated by SimulatesTheNewOnes) |
| SimulateDm.ArgsFor | scripts/simulate-dm.py:53-64 | the display name, group, trade, preview pattern and payment link the message is formatted with (stated by DmForMentions) |
| SimulateDm.TemplateAHoles | scripts/simulate-dm.py:17-29 | template A has the fields name, group, trade, preview file and payment link, in that order |
| SimulateDm.MessageMentions | scripts/simulate-dm.py:17-29 | the message starts "Hey " plus the name, and the group, trade, preview file and payment link all occur in it |
| SimulateDm.Message | scripts/simulate-dm.py:58-64 | template A formatted with the five arguments; what the text contains is stated by MessageMentions |
| SimulateDm.DmSafeName | scripts/simulate-dm.py:53 | the simulation's safe name is the redesign's safe name with every apostrophe dropped and every other character kept in order |
| SimulateDm.DmSafeNameChars | scripts/simulate-dm.py:53 | the simulation's safe name has no space, no apostrophe and no capital |
| SimulateDm.DmSafeNameWithoutApostrophe | scripts/simulate-dm.py:53 | for a name without an apostrophe the simulation's safe name is the redesign's |
| SimulateDm.ApostropheMissesPreviewPage | scripts/simulate-dm.py:53-54 | for every name with an apostrophe and every date, the pattern's text before `*` does not begin the name of the preview page the redesign saves for that name, so the pattern names no page saved for that name (it can still match the page of another prospect, such as "Joes" for "Joe's") |
| SimulateDm.ApostropheSplitsTheStems | scripts/simulate-dm.py:53 | for "Joe's" the redesign's stem is "joe's" but the simulation's is "joes" |
| SimulateDm.PreviewPattern | scripts/simulate-dm.py:54 | the preview pattern starts with the safe name and ends in `_*_preview.html` |
| SimulateDm.PreviewPatternNamesPreviewPage | scripts/simulate-dm.py:54 | for a name without an apostrophe, filling the pattern's `*` with a date gives the page the redesign saves beside that date's clean professional preview |
| SimulateDm.SimFile | scripts/simulate-dm.py:67 | the simulation file is in the simulations directory, starts with `dm_` and ends in `.txt` |
| SimulateDm.SimFileInjective | scripts/simulate-dm.py:67 | on one day, different safe names give different simulation files |
| SimulateDm.DisplayName | scripts/simulate-dm.py:57 | the display name is `owner_name` when the record has it, otherwise the name |
| SimulateDm.GroupText | scripts/simulate-dm.py:60 | the group is the record's group source, or `None` (as Python prints a missing value) when it has none |
| SimulateDm.DmFor | scripts/simulate-dm.py:53-67 | one prospect's simulation: the message and the file it is saved under; what the message contains is stated by DmForMentions |
| SimulateDm.DmForMentions | scripts/simulate-dm.py:53-64 | each simulated message greets the prospect by display name and contains its preview pattern, the payment link and its trade |
| SimulateDm.SimulatesTheNewOnes | scripts/simulate-dm.py:49-51 | the simulation produces, in list order, one message per `new` prospect and none for any other; at most one per prospect, and none when no prospect is new |
| SimulateDm.SimulateOne | scripts/simulate-dm.py:53-67 | one loop step gives the prospect's simulated message and file |
| SimulateDm.SimulateAll | scripts/simulate-dm.py:49-93 | the loop produces the messages and files of exactly the `new` prospects in list order; the reported count is the number of `new` prospects, which is the number of messages |

## Left out

- JSON reading and writing and `mkdir` are not modelled. A stored file is an `Option` value, loading gives it back, and saving is the identity.
- `datetime.now()` and `date.today()` are parameters (`today`, `timestamp`) and are not read from a clock.
- Opening browser tabs (`open`), `screencapture`, `time.sleep` and console output are not modelled: they are operating-system effects. The tier filter and the screenshot path are what remains of those commands.
- The headless-browser render in `render_card_to_image` (scripts/redesign-pipeline.py:308-341) is not modelled. Whether a render succeeds is the parameter `rendered`, and only the reported path is modelled. A written page is a `CardPage` descriptor whose text is `PageHtml` of the card information.
- `render_card_to_image` also rewrites every `.html` in the path to `.png` (scripts/redesign-pipeline.py:311-313). The model takes the image path as built. The two differ whenever the path contains `.html` before its end: in the safe name (which is lower-cased, so a prospect named "Joe.HTML" counts too), in the template name, which comes from `--template` (scripts/redesign-pipeline.py:433), or in the project root the path starts with.
- The CSS and HTML bodies of the card templates are abbreviated to short literal pieces. The placeholders are modelled, with their order, repeats and alpha suffixes. `CardHtml` is therefore exact in substitution but not in the literal text.
- Python's `lower()` and `title()` are modelled for ASCII letters only; every other character is left unchanged.
- The status given to `update` is one of the five statuses, because the command line only accepts those. A record whose stored status is some other string is not modelled.
- A record whose `owner_name` key is present with a null value is not modelled: the model has an owner name or none.
- The simulation file's header and attachment lines (scripts/simulate-dm.py:68-81) are not modelled; the message itself and the file name are.
- The command-line parsing of all three scripts, `extract_info_prompt` (a constant prompt text) and `scripts/stripe-setup.py` are not part of this model.
- `ProspectViews.DefaultConfig` holds the groups and keywords of the default configuration. The `screenshot_hotkey` and `check_times` entries (scripts/fb-group-monitor.py:80-81) are left out because nothing in the modelled logic reads them.
- The directory constants are relative paths without the project root (`PROJECT_ROOT`, the scripts' parent directory: scripts/redesign-pipeline.py:19-22, scripts/simulate-dm.py:11-14, scripts/fb-group-monitor.py:25-27). The root is where the scripts are installed, which the model does not know. For a name without `/`, the script's path is that root followed by the modelled relative path.
- ProspectViews.ScreenshotPath: paths are joined as text with `/`. pathlib's `/` operator (scripts/fb-group-monitor.py:171) starts over at the filesystem root when the file part begins with `/`, and collapses `//`. A name containing `/` is not modelled that way, because the safe name keeps `/`. For such a name, the file would also lie in a subdirectory nothing creates, so the script's write fails; writes are not modelled.
- Redesign.PreviewPageName: the preview and final paths are joined as text, not with pathlib's `/` (scripts/redesign-pipeline.py:356, :361). So for a name beginning with `/` the script writes at the filesystem root, while the model says the watermarked directory. For a name containing `/`, the script's `open` (scripts/redesign-pipeline.py:316) fails on the missing subdirectory; that failure is not modelled.
- SimulateDm.SimFileInjective: the simulation file is joined as text, not with pathlib's `/` (scripts/simulate-dm.py:67). pathlib collapses `//`, so the script gives safe names such as "a//b" and "a/b" the same file, although the modelled text paths differ. A name containing `/` also makes the script's `open` (scripts/simulate-dm.py:68) fail on the missing subdirectory; that failure is not modelled.
- The icon and colour tables are written as chains of comparisons rather than dictionaries; each key maps to the same value as in the script.
