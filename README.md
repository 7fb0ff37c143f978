# Portfolio site: verified model of its logic

The portfolio is a single-page site backed by a small in-memory API. Most of
it is markup. This project models the parts that carry logic and proves their
contracts in Dafny:

- **Experience carousel** (`carousel.dfy`, module `ExperienceCarousel`). The
  class `Carousel` holds `currentIndex`. `nextSlide` and `prevSlide` move it
  with wrap-around, written with JavaScript's truncating `%`, and a dot click
  jumps straight to an index. The active dot, the track offset
  (`currentIndex * 100` percent) and the six-colour slide cycle are pure
  functions of the index.
- **In-memory store** (`storage.dfy`, module `Storage`). The class
  `MemStorage` keeps the users table as a map, plus the insertion order a JS
  `Map` iterates in. `createUser`, `getUser` and the first-match
  `getUserByUsername` scan are modelled, along with the five portfolio
  getters over the seeded arrays.
- **Record schemas** (`schema.dfy`, module `Schema`). Each zod object schema
  becomes a parser from a JSON value to the typed record, or to nothing. Each
  record type has an encoder. The model proves:
  - round trips;
  - exact acceptance conditions: which fields are required, that the rating
    bounds are inclusive, and the category enumeration;
  - that the seeded data passes its schemas.
- **Theme engine** (`theme_context.dfy`, module `ThemeContext`):
  - `hexToHsl`: `#RRGGBB` decoding (CSS Color Module Level 4, section 5.2),
    then the sRGB-to-HSL conversion (section 7) over exact reals, with
    `Math.round` and the `H S% L%` template;
  - the five-theme table;
  - the provider (class `ThemeProvider`), whose effect writes the theme into
    the document's style as custom properties;
  - the `useTheme` guard.
- **Theme switcher** (`theme_switcher.dfy`, module `ThemeSwitcher`). The class
  `Switcher` has the `isOpen` flag and the provider it selects themes through.
  The module also holds the options list, the highlight test and the option
  test ids.
- **Test-id slug** (`test_ids.dfy`, module `TestIds`). This is
  `toLowerCase().replace(/\s+/g, '-')`, which the switcher uses for its option
  test ids. The skill and achievement cards write the same expression in
  their markup; those uses are not modelled separately.
- Shared helpers:
  - `js_number.dfy` (module `JsNumber`): JavaScript's remainder, `Math.round`
    and integer-to-decimal printing;
  - `wrappers.dfy`: `Option` and `Result`.

The browser document is modelled as data:
- the custom properties of `document.documentElement.style` are a
  `map<string, string>`;
- `document.body.style.backgroundColor` is a string field of the provider.

React's effect, which runs after `setTheme`, is folded into `SetTheme` itself.

The carousel in this repository has only the previous/next buttons and the
dots. It has no visibility-based reconciliation, no swipe handling and no
auto-advance timer. The model follows that code.

## Model

| member | source | states |
|---|---|---|
| ExperienceCarousel.NextIndex | client/src/components/ExperienceCarousel.tsx:22-24 | `(i + 1) % n` stays in [0, n) and is i + 1, or 0 from the last slide |
| ExperienceCarousel.PrevIndex | client/src/components/ExperienceCarousel.tsx:26-28 | `(i - 1 + n) % n` stays in [0, n) and is i - 1, or n - 1 from slide 0 |
| ExperienceCarousel.NextThenPrev | client/src/components/ExperienceCarousel.tsx:22-28 | next then previous returns to the starting index |
| ExperienceCarousel.PrevThenNext | client/src/components/ExperienceCarousel.tsx:22-28 | previous then next returns to the starting index |
| ExperienceCarousel.SingleSlideStays | client/src/components/ExperienceCarousel.tsx:22-28 | with one slide, both buttons leave the index at 0 |
| ExperienceCarousel.AdvanceIsModular | client/src/components/ExperienceCarousel.tsx:22-24 | k presses of next from i land on (i + k) mod n |
| ExperienceCarousel.RetreatIsModular | client/src/components/ExperienceCarousel.tsx:26-28 | k presses of previous from i land on (i - k) mod n |
| ExperienceCarousel.DotActive | client/src/components/ExperienceCarousel.tsx:97 | no contract of its own: `index === currentIndex`, whose consequences `ExactlyOneActiveDot` states |
| ExperienceCarousel.ActiveDotCount | client/src/components/ExperienceCarousel.tsx:92-100 | no more dots are active than are drawn |
| ExperienceCarousel.ActiveDotCountIs | client/src/components/ExperienceCarousel.tsx:92-100 | among the first n dots, one is active if the current index is among them, otherwise none |
| ExperienceCarousel.ExactlyOneActiveDot | client/src/components/ExperienceCarousel.tsx:97 | with a valid index, exactly one dot is active: the one equal to `currentIndex` |
| ExperienceCarousel.TrackOffset | client/src/components/ExperienceCarousel.tsx:35 | the offset is a whole number of slides: `currentIndex` hundreds of percent |
| ExperienceCarousel.TrackOffsetRange | client/src/components/ExperienceCarousel.tsx:35 | the offset lies in [0, (n - 1) * 100] |
| ExperienceCarousel.SlideColor | client/src/components/ExperienceCarousel.tsx:20-43 | slide k gets `colors[k % 6]`: every slide gets one of the six colour classes, and the first six slides get them in their listed order (`SlideColorPeriodic` repeats them) |
| ExperienceCarousel.SlideColorPeriodic | client/src/components/ExperienceCarousel.tsx:20-43 | slides k and k + 6 share a colour |
| ExperienceCarousel.NeighbourColorsDiffer | client/src/components/ExperienceCarousel.tsx:20-43 | adjacent slides never share a colour |
| ExperienceCarousel.Carousel.constructor | client/src/components/ExperienceCarousel.tsx:18 | the index starts at 0 and is valid for n >= 1 |
| ExperienceCarousel.Carousel.NextSlide | client/src/components/ExperienceCarousel.tsx:22-24 | the index becomes `NextIndex` of the old one and stays in [0, n) |
| ExperienceCarousel.Carousel.PrevSlide | client/src/components/ExperienceCarousel.tsx:26-28 | the index becomes `PrevIndex` of the old one and stays in [0, n) |
| ExperienceCarousel.Carousel.GoTo | client/src/components/ExperienceCarousel.tsx:92-95 | clicking dot k sets the index to exactly k |
| JsNumber.JsRem | client/src/components/ExperienceCarousel.tsx:22-28 | JavaScript `%`: the result lies strictly between -b and b and takes the dividend's sign |
| JsNumber.JsRemOfNonNegative | client/src/components/ExperienceCarousel.tsx:22-28 | on a non-negative dividend, JavaScript `%` agrees with the mathematical remainder |
| JsNumber.Round | client/src/context/ThemeContext.tsx:26 | `Math.round` gives the integer within half a unit of x, a half rounding up |
| JsNumber.RoundWithin | client/src/context/ThemeContext.tsx:26 | `Math.round` keeps a value that lies between two integers between them |
| JsNumber.Decimal | client/src/context/ThemeContext.tsx:26 | `String(n)` is a non-empty digit string with no leading zero except for 0 itself |
| JsNumber.DecimalRoundTrip | client/src/context/ThemeContext.tsx:26 | reading the printed digits back gives the number |
| JsNumber.DecimalInjective | client/src/context/ThemeContext.tsx:26 | different numbers print differently |
| Schema.Restrict | shared/schema.ts:21-30 | the object a schema returns keeps exactly its own keys that are present, with their values |
| Schema.NumberField | shared/schema.ts:22 | `z.number()` accepts exactly a present number |
| Schema.StringField | shared/schema.ts:23 | `z.string()` accepts exactly a present string |
| Schema.OptionalStringField | shared/schema.ts:28 | `.optional()`: an absent key gives no value, a present one must be a string |
| Schema.StringItems | shared/schema.ts:27 | `z.array(z.string())` accepts exactly arrays of strings and keeps their order |
| Schema.StringArrayField | shared/schema.ts:27 | a result means the key holds exactly the encoded strings; an absent or non-array value is rejected |
| Schema.StringArrayRoundTrip | shared/schema.ts:27 | an encoded string array reads back as the same strings |
| Schema.CategoryRoundTrip | shared/schema.ts:38 | the four category names parse to their categories, and nothing else parses |
| Schema.ParseCategory | shared/schema.ts:38 | a name that parses is the name of the category it gives |
| Schema.ParseInsertUser | shared/schema.ts:12-15 | what passes is an object, and the result is it cut down to `username` and `password` |
| Schema.InsertUserRoundTrip | shared/schema.ts:12-15 | every insert record passes its schema unchanged |
| Schema.InsertUserAccepts | shared/schema.ts:12-15 | a value passes exactly when `username` and `password` are strings; the result keeps only those two keys |
| Schema.ParseExperience | shared/schema.ts:21-30 | whatever passes has a rating in [0, 100] |
| Schema.ExperienceRoundTrip | shared/schema.ts:21-30 | a record with a rating in [0, 100] passes unchanged |
| Schema.ExperienceFieldsRead | shared/schema.ts:21-30 | each field of an encoded experience reads back as the record's own value |
| Schema.ExperienceParsedIsRestriction | shared/schema.ts:21-30 | what passes is the input cut down to the schema's keys |
| Schema.ExperienceAccepts | shared/schema.ts:21-30 | any JSON value passes exactly when it is an object whose required keys hold values of their types, whose `imageUrl` is absent or a string, and whose rating lies in [0, 100] |
| Schema.ExperienceRatingBounds | shared/schema.ts:26 | an encoded record passes exactly when 0 <= rating <= 100, both bounds inclusive |
| Schema.ExperienceImageUrlOptional | shared/schema.ts:28 | dropping `imageUrl` from a valid object keeps it valid, with no image |
| Schema.ExperienceOthersRequired | shared/schema.ts:21-30 | dropping any other field makes every object invalid |
| Schema.ParseSkill | shared/schema.ts:34-39 | whatever passes has a rating in [0, 100] |
| Schema.SkillRoundTrip | shared/schema.ts:34-39 | a skill with a rating in [0, 100] passes unchanged |
| Schema.SkillAccepts | shared/schema.ts:34-39 | any JSON value passes exactly when it is an object with `id`, `name`, `rating` and `category` present and typed, its rating in [0, 100] and its category one of the four names; the result keeps only the schema's keys |
| Schema.ParseProjectCard | shared/schema.ts:43-49 | what passes is an object, and the result is it cut down to the five keys |
| Schema.ProjectCardRoundTrip | shared/schema.ts:43-49 | every project card passes unchanged |
| Schema.ProjectCardAccepts | shared/schema.ts:43-49 | a value passes exactly when all five fields are present with their types; the result keeps only those keys |
| Schema.ParseNewsItem | shared/schema.ts:53-59 | what passes is an object, and the result is it cut down to the five keys |
| Schema.NewsItemRoundTrip | shared/schema.ts:53-59 | every news item passes unchanged |
| Schema.NewsItemAccepts | shared/schema.ts:53-59 | a value passes exactly when all five fields are present with their types; the result keeps only those keys |
| Schema.ParseProject | shared/schema.ts:63-68 | what passes is an object, and the result is it cut down to the four keys |
| Schema.ProjectRoundTrip | shared/schema.ts:63-68 | every project passes unchanged |
| Schema.ProjectAccepts | shared/schema.ts:63-68 | a value passes exactly when all four fields are present with their types; the result keeps only those keys |
| Storage.SeededExperiencesValid | server/storage.ts:24-64 | three experiences; each carries its own position as `index`; each passes the experience schema |
| Storage.SeededSkillsValid | server/storage.ts:66-73 | six skills, rated between 85 and 95; each passes the skill schema |
| Storage.SeededRecordsValid | server/storage.ts:75-121 | every seeded project card, news item and project passes its schema |
| Storage.FindByUsername | server/storage.ts:132-134 | `find` answers only with a stored user carrying the username |
| Storage.FindByUsernameIsFirstMatch | server/storage.ts:131-135 | the lookup gives the earliest user with the username, and nothing exactly when no user has it |
| Storage.FindByUsernameAfterAppend | server/storage.ts:131-142 | adding a user never changes an answer already given; it can only answer a username nobody had |
| Storage.MemStorage.Values | server/storage.ts:132 | the users in insertion order, one per key |
| Storage.MemStorage.constructor | server/storage.ts:123-125 | a new store has no users, so `getUser` finds nothing for every id |
| Storage.MemStorage.GetUser | server/storage.ts:127-129 | a user is found exactly when its id is a key, and it is the one stored there |
| Storage.MemStorage.GetUserByUsername | server/storage.ts:131-135 | the scan returns the first user with the username in insertion order, and nothing exactly when no user has it |
| Storage.MemStorage.CreateUser | server/storage.ts:137-142 | the new user carries the input's username and password and the new id; only that entry changes; it is appended to the iteration order |
| Storage.MemStorage.GetExperiences | server/storage.ts:145-147 | returns the seeded experiences in declaration order |
| Storage.MemStorage.GetSkills | server/storage.ts:149-151 | returns the seeded skills in declaration order |
| Storage.MemStorage.GetProjectCards | server/storage.ts:153-155 | returns the seeded project cards in declaration order |
| Storage.MemStorage.GetNewsItems | server/storage.ts:157-159 | returns the seeded news items in declaration order |
| Storage.MemStorage.GetProjects | server/storage.ts:161-163 | returns the seeded projects in declaration order |
| Storage.CreateSameUsernameTwice | server/storage.ts:137-142 | two users with one username are both stored, and the lookup keeps answering with the first |
| ThemeContext.HexDigitValue | client/src/context/ThemeContext.tsx:5-7 | a hexadecimal digit is worth less than 16 |
| ThemeContext.Channel | client/src/context/ThemeContext.tsx:5-7 | each two-digit channel decodes to a value in 0..255 |
| ThemeContext.Red | client/src/context/ThemeContext.tsx:5 | characters 1-2 decode to a value in 0..255 |
| ThemeContext.Green | client/src/context/ThemeContext.tsx:6 | characters 3-4 decode to a value in 0..255 |
| ThemeContext.Blue | client/src/context/ThemeContext.tsx:7 | characters 5-6 decode to a value in 0..255 |
| ThemeContext.HexRoundTrip | client/src/context/ThemeContext.tsx:5-7 | decoding a written `#rrggbb` gives back its three channels |
| ThemeContext.HexDigitCaseInsensitive | client/src/context/ThemeContext.tsx:5-7 | `parseInt(_, 16)` gives 'A'..'F' the values of 'a'..'f' |
| ThemeContext.HexRoundTripUpper | client/src/context/ThemeContext.tsx:5-7 | a colour spelled with any mix of upper-case digits decodes to the same three channels as its lower-case spelling |
| ThemeContext.Max3 | client/src/context/ThemeContext.tsx:9 | `Math.max` is one of its arguments and at least each of them |
| ThemeContext.Min3 | client/src/context/ThemeContext.tsx:10 | `Math.min` is one of its arguments and at most each of them |
| ThemeContext.HueSixths | client/src/context/ThemeContext.tsx:18-22 | the `switch (max)` gives a hue in [0, 6) sixths of a turn, the red case wrapped by 6 when green is below blue |
| ThemeContext.ExactHsl | client/src/context/ThemeContext.tsx:9-24 | hue lies in [0, 1) of a turn; saturation and lightness lie in [0, 1] |
| ThemeContext.TiedMaximaAgree | client/src/context/ThemeContext.tsx:18-22 | where two channels tie for the largest, both hue formulas give the same hue, so the red-green-blue order of the `switch` does not change the result |
| ThemeContext.ExtremesRecovered | client/src/context/ThemeContext.tsx:9-17 | with a = s * min(l, 1 - l), the largest channel is l + a and the smallest l - a (the inverse direction of CSS Color 4's HSL-to-RGB) |
| ThemeContext.ChromaRecovered | client/src/context/ThemeContext.tsx:11-17 | the same, from the largest and smallest channel alone |
| ThemeContext.RgbToHsl | client/src/context/ThemeContext.tsx:4-27 | the printed hue lies in [0, 360], and saturation and lightness in [0, 100] |
| ThemeContext.GreyHasNoHue | client/src/context/ThemeContext.tsx:11-26 | when r = g = b, hue and saturation are 0 and lightness is round(100 r / 255) |
| ThemeContext.ExactPure | client/src/context/ThemeContext.tsx:11-23 | a pure channel of strength v has saturation 1, lightness v / 2, and hue 0, 1/3 or 2/3 of a turn for red, green or blue |
| ThemeContext.PureHues | client/src/context/ThemeContext.tsx:4-27 | pure red, green and blue convert to hues 0, 120 and 240, saturation 100, and lightness round(50 v / 255) |
| ThemeContext.HexToHsl | client/src/context/ThemeContext.tsx:4-26 | for a well-formed colour, hue is in [0, 360], and saturation and lightness are in [0, 100] |
| ThemeContext.FormatHsl | client/src/context/ThemeContext.tsx:26 | no contract of its own: the template `${h} ${s}% ${l}%`, read back by `FormatHslRoundTrip` |
| ThemeContext.FormatHslRoundTrip | client/src/context/ThemeContext.tsx:26 | a reader of three digit runs closed by " ", "% " and "%" gives back the printed triple |
| ThemeContext.FormatHslInjective | client/src/context/ThemeContext.tsx:26 | different triples print differently |
| ThemeContext.HslString | client/src/context/ThemeContext.tsx:4-27 | no contract of its own: `hexToHsl` as a string, read back by `HslStringReadsBack` |
| ThemeContext.HslStringReadsBack | client/src/context/ThemeContext.tsx:4-27 | the written string reads back as the converted triple: hue in [0, 360], saturation and lightness in [0, 100] |
| ThemeContext.AccentHslString | client/src/context/ThemeContext.tsx:4-27 | `#ff6b35`, the primary, accent and ring colour of "Warm Beige", converts to "16 100% 60%" |
| ThemeContext.NamedColors | client/src/context/ThemeContext.tsx:173-189 | the provider converts seventeen colours, in the order it writes them |
| ThemeContext.WarmBeigeWellFormed | client/src/context/ThemeContext.tsx:52-72 | every colour of "Warm Beige" is a well-formed `#RRGGBB`: the seventeen named colours, which are converted, and the six card colours, which are written raw |
| ThemeContext.CoolMintWellFormed | client/src/context/ThemeContext.tsx:73-93 | every colour of "Cool Mint" is a well-formed `#RRGGBB`: the seventeen named colours, which are converted, and the six card colours, which are written raw |
| ThemeContext.SoftPinkWellFormed | client/src/context/ThemeContext.tsx:94-114 | every colour of "Soft Pink" is a well-formed `#RRGGBB`: the seventeen named colours, which are converted, and the six card colours, which are written raw |
| ThemeContext.OceanBlueWellFormed | client/src/context/ThemeContext.tsx:115-135 | every colour of "Ocean Blue" is a well-formed `#RRGGBB`: the seventeen named colours, which are converted, and the six card colours, which are written raw |
| ThemeContext.DarkModeWellFormed | client/src/context/ThemeContext.tsx:136-156 | every colour of "Dark Mode" is a well-formed `#RRGGBB`: the seventeen named colours, which are converted, and the six card colours, which are written raw |
| ThemeContext.ThemesTableFacts | client/src/context/ThemeContext.tsx:51-157 | five themes, each with exactly six well-formed card colours and convertible named colours, all names distinct |
| ThemeContext.InitialTheme | client/src/context/ThemeContext.tsx:168 | the starting theme is the table's first, "Warm Beige" |
| ThemeContext.Converted | client/src/context/ThemeContext.tsx:173-189 | converting a list of colours keeps its length |
| ThemeContext.ConvertedAt | client/src/context/ThemeContext.tsx:173-189 | each converted colour is `hexToHsl` of the colour at the same position |
| ThemeContext.NamedStyleKeys | client/src/context/ThemeContext.tsx:173-189 | the named writes set exactly the seventeen named properties |
| ThemeContext.CardKey | client/src/context/ThemeContext.tsx:193 | the property of card colour i starts with `--card-color-` and goes on past it |
| ThemeContext.CardKeyNumber | client/src/context/ThemeContext.tsx:192-193 | what follows the prefix is all digits and reads as i + 1, so the cards are numbered 1, 2, 3, ... in order |
| ThemeContext.CardKeyInjective | client/src/context/ThemeContext.tsx:193 | different card positions use different properties |
| ThemeContext.NamedKeysAreNotCardKeys | client/src/context/ThemeContext.tsx:173-193 | no named property is a card-colour property |
| ThemeContext.CardKeysMembership | client/src/context/ThemeContext.tsx:192-194 | the property of card i is among those the first k card colours write exactly when i < k |
| ThemeContext.CardKeysSize | client/src/context/ThemeContext.tsx:192-194 | k card colours write k distinct properties |
| ThemeContext.CardKeysAreNotNamed | client/src/context/ThemeContext.tsx:173-194 | the card properties and the named properties are disjoint |
| ThemeContext.CardStyle | client/src/context/ThemeContext.tsx:192-194 | the first k card writes set exactly the first k card properties |
| ThemeContext.NamedStyle | client/src/context/ThemeContext.tsx:173-189 | no contract of its own: the seventeen named properties with the converted colours, whose key set `NamedStyleKeys` and whose writes `NamedWrites` state |
| ThemeContext.ThemeStyle | client/src/context/ThemeContext.tsx:173-194 | no contract of its own: everything the effect writes for a theme, whose keys and values `StyleKeys` and `StyleValues` state |
| ThemeContext.CardStyleValue | client/src/context/ThemeContext.tsx:192-194 | card property i holds the raw card colour i, unconverted |
| ThemeContext.StyleKeys | client/src/context/ThemeContext.tsx:173-194 | the effect writes the named properties and one numbered property per card colour, and no other key |
| ThemeContext.StyleValues | client/src/context/ThemeContext.tsx:173-194 | the named properties hold the converted colours, and the numbered ones hold the card colours in order |
| ThemeContext.NamedWrites | client/src/context/ThemeContext.tsx:173-189 | the seventeen `setProperty` calls in sequence amount to a union with the named style |
| ThemeContext.SetNamedProperties | client/src/context/ThemeContext.tsx:173-189 | after the named writes, the style is the old style overlaid with the named style |
| ThemeContext.SetCardProperties | client/src/context/ThemeContext.tsx:192-194 | after the `forEach` loop, the style is the old style overlaid with the card style |
| ThemeContext.ApplyToStyle | client/src/context/ThemeContext.tsx:170-194 | the effect leaves the style as the old one overlaid with everything the theme writes |
| ThemeContext.ThemeProvider.constructor | client/src/context/ThemeContext.tsx:167-198 | mounting makes "Warm Beige" current and writes it out, including the body background |
| ThemeContext.ThemeProvider.ApplyTheme | client/src/context/ThemeContext.tsx:170-198 | the style gains the theme's properties, the body background becomes the theme's background, and the theme is unchanged |
| ThemeContext.ThemeProvider.SetTheme | client/src/context/ThemeContext.tsx:168-198 | the given theme becomes current and is written out, and the provider stays consistent |
| ThemeContext.UseTheme | client/src/context/ThemeContext.tsx:207-213 | returns the provider exactly when one is present; otherwise fails with "useTheme must be used within a ThemeProvider" |
| TestIds.IsSpace | client/src/components/ThemeSwitcher.tsx:24 | JavaScript's `\s` class; no whitespace character is the '-' that replaces it or an ASCII capital |
| TestIds.LowerChar | client/src/components/ThemeSwitcher.tsx:24 | lower-casing maps each ASCII capital to its small letter (32 code points on), keeps whitespace as whitespace, and leaves every other character alone |
| TestIds.Lower | client/src/components/ThemeSwitcher.tsx:24 | `toLowerCase` keeps the length and lower-cases each character in place |
| TestIds.DropSpaces | client/src/components/ThemeSwitcher.tsx:24 | removes exactly the leading whitespace run: a suffix that is empty or starts with a non-space |
| TestIds.Slug | client/src/components/ThemeSwitcher.tsx:24 | the slug contains no whitespace and no ASCII capital |
| TestIds.Collapse | client/src/components/ThemeSwitcher.tsx:24 | `replace(/\s+/g, '-')` never lengthens the text and is empty exactly when the text is |
| TestIds.CollapseClean | client/src/components/ThemeSwitcher.tsx:24 | `replace(/\s+/g, '-')` leaves no whitespace and adds no capital |
| TestIds.CollapseNoSpace | client/src/components/ThemeSwitcher.tsx:24 | no whitespace survives the replacement |
| TestIds.CollapseNoUpper | client/src/components/ThemeSwitcher.tsx:24 | the replacement adds no capital to text that has none |
| TestIds.LowerOfLower | client/src/components/ThemeSwitcher.tsx:24 | lower-casing text with no capitals changes nothing |
| TestIds.CollapseOfSpaceless | client/src/components/ThemeSwitcher.tsx:24 | the replacement changes nothing in text without whitespace |
| TestIds.SlugIdempotent | client/src/components/ThemeSwitcher.tsx:24 | slugging a slug gives the same slug |
| TestIds.SlugOfSpaceless | client/src/components/ThemeSwitcher.tsx:24 | for text without whitespace, the slug is just the lower-casing |
| TestIds.CollapseAppend | client/src/components/ThemeSwitcher.tsx:24 | the replacement distributes over a split after a non-whitespace character |
| TestIds.CollapseLeadingRun | client/src/components/ThemeSwitcher.tsx:24 | a leading whitespace run becomes one '-' |
| TestIds.SpaceRunBecomesDash | client/src/components/ThemeSwitcher.tsx:24 | each maximal whitespace run, whatever its length, becomes exactly one '-' |
| TestIds.SlugHead | client/src/components/ThemeSwitcher.tsx:24 | the slug starts with the lower-cased first character when that character is not whitespace |
| TestIds.LowerAppend | client/src/components/ThemeSwitcher.tsx:24 | lower-casing distributes over concatenation |
| TestIds.TwoWordSlug | client/src/components/ThemeSwitcher.tsx:24 | two words around a space slug to the lower-cased words joined by '-' |
| TestIds.WarmBeigeSlug | client/src/components/ThemeSwitcher.tsx:24 | "Warm Beige" gives "warm-beige" |
| ThemeSwitcher.IsHighlighted | client/src/components/ThemeSwitcher.tsx:22 | no contract of its own: `theme.name === t.name`, whose consequences `ExactlyOneHighlighted` states |
| ThemeSwitcher.HighlightCount | client/src/components/ThemeSwitcher.tsx:22 | no more options are highlighted than are listed |
| ThemeSwitcher.NoneHighlighted | client/src/components/ThemeSwitcher.tsx:22 | no option is highlighted when no name matches |
| ThemeSwitcher.ExactlyOneHighlighted | client/src/components/ThemeSwitcher.tsx:22 | with distinct names, exactly one option is highlighted: the one whose name is the current theme's |
| ThemeSwitcher.ThemeHighlightedOnce | client/src/components/ThemeSwitcher.tsx:14-22 | for any current theme from the table, exactly the current theme's option is highlighted |
| ThemeSwitcher.TestId | client/src/components/ThemeSwitcher.tsx:24 | an option's test id is "theme-" followed by a lower-case slug, with no whitespace |
| ThemeSwitcher.DistinctInitialsGiveDistinctIds | client/src/components/ThemeSwitcher.tsx:24 | names starting with different letters get different test ids |
| ThemeSwitcher.TableNames | client/src/context/ThemeContext.tsx:51-157 | the table's names, in order |
| ThemeSwitcher.TestIdsDistinct | client/src/components/ThemeSwitcher.tsx:24 | the five table themes get five different test ids |
| ThemeSwitcher.Switcher.constructor | client/src/components/ThemeSwitcher.tsx:6-7 | the menu starts closed, reading the given provider |
| ThemeSwitcher.Switcher.Options | client/src/components/ThemeSwitcher.tsx:12-14 | while open the options are the theme table in order; while closed there are none |
| ThemeSwitcher.Switcher.Toggle | client/src/components/ThemeSwitcher.tsx:38 | the flag flips and nothing else changes, so two toggles restore it |
| ThemeSwitcher.Switcher.Select | client/src/components/ThemeSwitcher.tsx:17-20 | the chosen option becomes the current theme and is written out, the menu closes, and that option alone is highlighted |

## Left out

- HTTP routing (`server/routes.ts`) and its try/catch-to-500 handlers are
  I/O plumbing. `async`/`Promise` wrappers become plain methods and
  functions.
- `randomUUID` becomes an `id` parameter of `CreateUser`, with the
  precondition that the id is unused.
- Storage.MemStorage.CreateUser: the `unique()` constraint on `username` in
  the table declaration is not enforced by `MemStorage`, and the model does
  not enforce it either. `CreateSameUsernameTwice` shows the duplicate being
  stored.
- React rendering, JSX class strings and the `Palette`/chevron icons are not
  modelled. The skill and achievement cards build their test ids with the
  same expression as `TestIds.Slug`, but no member applies it to their
  names; the rest of those components is markup.
- The document is modelled as data. `document.documentElement.style` is a
  map from property to value, and `document.body.style.backgroundColor` is a
  field of the provider. React's run of the effect after a state change is
  modelled as happening inside `SetTheme`.
- ThemeContext.ExactHsl: computes over exact reals, not IEEE doubles.
  `Math.round` is floor(x + 1/2). Results can differ from the browser's where
  a double rounding error crosses a .5 boundary.
- ThemeContext.HexToHsl: requires a well-formed `#RRGGBB`. On malformed input
  `parseInt` reads only the leading hexadecimal digits of each two-character
  slice (NaN when there are none), so the source prints wrong or "NaN"
  components; the model does not cover this.
- ThemeContext.PureHues: states the primaries for any channel strength v,
  rather than as the literal colours `#ff0000`, `#00ff00` and `#0000ff`.
- TestIds.Lower: lower-cases only the ASCII letters A-Z. Unicode case
  mapping is not modelled. The whitespace class `\s` is modelled in full.
- ThemeContext.NamedStyleKeys: names the seventeen keys as a set. The
  cardinality 17 of that set is not stated as a number; the card properties'
  count is (`CardKeysSize`).
- ExperienceCarousel.Carousel.constructor: requires at least one slide.
  With no experiences JavaScript's `% 0` gives NaN, which the model does not
  represent.
- JsNumber.JsRem: states the sign and the magnitude bound of JavaScript's `%`
  but not that the dividend minus the result is a multiple of the divisor.
- Schema: JSON numbers are exact reals. NaN, infinities and zod's coercion
  and error messages are not modelled; only accept/reject and the kept
  fields are. Unknown keys are stripped, as zod's default object parsing
  does.
- Navigation (`client/src/components/Navigation.tsx`), the pages and the
  experience card's style lookup are markup and scrolling. They are not part
  of this model.
