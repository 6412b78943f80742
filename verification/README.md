# IOTweb core, modelled in Dafny

IOTweb is the marketing site of IOTech, a vendor of IoT hubs, sensors and
gateways. This project models the parts of the site that compute something:

- the SEO helpers (`src/lib/seo.ts`): `generateMetadata` derives a page's title,
  keywords, canonical URL, Open Graph and Twitter cards from a small config plus
  site-wide defaults; `generateStructuredData` builds schema.org JSON-LD objects
  (Organization, Product, WebSite, BreadcrumbList, and any other type name);
- the robots.txt rules (`src/app/robots.ts`);
- the contact form: the server action's schema and its answers
  (`src/app/contact/actions.ts`), and the page's richer client-side schema,
  the payload it sends, and what it does with the answer
  (`src/app/contact/page.tsx`);
- the product page's ItemList, alternating layout and breadcrumbs
  (`src/app/product/page.tsx`), and the metadata of the product and contact
  pages (`src/app/product/metadata.ts`, `src/app/contact/metadata.ts`);
- the client-logo strip: the logo list, the updates applied while every logo
  is enhanced, the success counter and final notice, and the image each tile
  shows (`src/components/home/ClientLogos.tsx`);
- the particle network of the hero animation: one frame of a particle, the
  pass choosing which pairs are joined by a line, and the particle that
  follows the mouse (`src/components/common/ParticleNetworkAnimation.tsx`).

One module per source file: `Seo`, `Robots`, `ContactAction`, `ContactPage`,
`ProductPage`, `ClientLogos` and `Particles`, over five small helper modules:
`Options` (`Option`, and `Result` for code that may throw), `Strings`
(JavaScript's `includes`, `startsWith`, `join` and number printing), `Json`
(JSON values, reading a property, and object spread), `Sequences` (distinct elements and distinct
keys) and `Toasts` (the notice shown by `useToast`).

Modelling choices:

- A JavaScript object is a `map<string, Json>`. A property whose value is
  `undefined` is an absent key, which is what JSON serialization makes of it.
  `{ ...a, ...b }` is the right-biased map union `a + b`. A template literal of
  a missing value gives the text `"undefined"`.
- A JavaScript string is truthy when it is present and non-empty (`Truthy`).
  The `||` and `&&` fallbacks of the source are written out with that test.
- The schema library's email check is a parameter `isEmail: string -> bool`.
- The file reader, `fetch`, the AI enhancement flow and the thrown exceptions
  are parameters: a `dataUrl` that is either the file's data URL or a thrown
  read error, a `callRejected` flag for a server call whose promise rejects,
  one `Outcome` per logo, and the `thrownAfter` position at which the action's
  `try` block throws.
- The `Promise.all` interleaving of the logo enhancements is a permutation
  `order`, the order in which the enhancements finish.
- Particle positions and speeds are reals. A particle's identity, which the
  source compares by reference in `indexOf`, is an `id` field, handed out
  from a `nextId` counter.

What the code does, in three places where a reader might expect otherwise:

- A title that already contains the site name is kept as it is
  (src/lib/seo.ts:50-52), so a title that names the site twice keeps both
  mentions.
- The contact action sends nothing: it writes four console lines and waits
  one second (src/app/contact/actions.ts:19-29). `SubmitContactForm` states
  that these are its only effects.
- The page's payload lacks the `name` the action requires
  (src/app/contact/page.tsx:129-146), so every submission from the page is
  answered "Invalid form data." (Findings, row 1). `ContactPage.HandleSubmit`
  models that code as written; `ContactPage.HandleSubmitCorrected` sends the
  corrected payload.

## Model

| member | source | states |
|---|---|---|
| Seo.FullTitle | src/lib/seo.ts:50-52 | A title that already contains the site name is kept as it is; any other title gets a bar separator and the site name appended. Either way the result contains the site name. |
| Seo.FullTitleAppends | src/lib/seo.ts:50-52 | A title missing any one character of the site name cannot contain it, so the site name is appended. |
| Seo.FullTitleIdempotent | src/lib/seo.ts:50-52 | Applying the title rule to its own result changes nothing. |
| Seo.PageUrl | src/lib/seo.ts:55 | The page URL starts with the site URL. After it comes the caller's `url` when that is non-empty; otherwise it is the site URL alone. |
| Seo.GenerateMetadata | src/lib/seo.ts:36-122 | The page, Open Graph and Twitter titles are one full title that names the site; the image alt keeps the raw title. The description is shared by the page and both cards. The canonical and Open Graph URLs are one URL rooted at the site URL, and it differs from the site URL exactly when `url` is non-empty. The image is `image` or the default, and Twitter's images are exactly that one. The type defaults to website. `publishedTime`, `modifiedTime` and `section` appear exactly when non-empty. The author falls back to the default. |
| Seo.KeywordsExtendDefaults | src/lib/seo.ts:22-60 | The keyword string is the ten defaults joined by ", ", then the caller's keywords in order after one more ", ". Without caller keywords it is the defaults alone. |
| Seo.ProductDataAsWritten | src/lib/seo.ts:157-173 | The Product case as written: every property of the caller's data appears unchanged in the result. |
| Seo.ProductDefaultsKept | src/lib/seo.ts:158-169 | As written, a Product keeps `@context` "https://schema.org", `@type` "Product", the IOTech brand and the IOTech manufacturer whenever the caller does not supply that property. |
| Seo.ProductUrlNeverAbsolute | src/lib/seo.ts:170-172 | As written, the Product `url` is never the site URL plus `data.url`. A caller URL replaces it verbatim, and without one it is the site URL followed by "undefined". |
| Seo.ProductData | src/lib/seo.ts:157-173 | The Product case as intended. `url` is present exactly when the caller gave one, and then it is the site URL followed by it. Every other caller property is kept. `@type` is the caller's or "Product". |
| Seo.Crumb | src/lib/seo.ts:192-197 | One ListItem has type ListItem, position index + 1, `item` = site URL + the input's `url`, and the input's `name` when it has one. It has no other property. |
| Seo.Breadcrumbs | src/lib/seo.ts:189-198 | The list succeeds exactly when `items` is an array without `null`; otherwise a TypeError is thrown. On success it holds only context, type and `itemListElement`, with one ListItem per item in input order. |
| Seo.Layered | src/lib/seo.ts:130-155 | Common data, then defaults, then the caller's data: the keys are the union of the three, caller values win, and every default the caller does not supply survives. |
| Seo.SchemaTypeOf | src/lib/seo.ts:135-202 | The `switch` case a type name reaches: its name is the given name, and it is the `default` case exactly when the name is none of Organization, Product, WebSite and BreadcrumbList. |
| Seo.SchemaTypeOfName | src/lib/seo.ts:135-202 | Each named type is reached by its own name, and only a name outside the four cases reaches `default`. |
| Seo.GenerateStructuredData | src/lib/seo.ts:124-203 | As written, choosing the case by the type's name: every name except "BreadcrumbList" succeeds, and "Product" gives the as-written Product object, caller properties (`url` included) winning. "BreadcrumbList" behaves exactly as `Breadcrumbs`. |
| Seo.HeaderKept | src/lib/seo.ts:130-201 | Every object that does not throw carries `commonData`: `@context` "https://schema.org" and `@type` the requested type's name, unless the caller's data supplies that property. |
| Seo.SameNameSameData | src/lib/seo.ts:135 | Two requests whose types have the same name get the same object, so an `Other` named "Product" is a Product. |
| Seo.GenerateStructuredDataCorrected | src/lib/seo.ts:157-173 | With the Product fix: other types behave as written. A Product always succeeds, has a `url` exactly when the caller gave one, and that `url` is the site URL followed by the caller's. |
| Seo.CallerDataOverrides | src/lib/seo.ts:135-201 | For every type name except "BreadcrumbList" (Organization, Product, WebSite and any other name), each property the caller supplies appears unchanged in the result. |
| Seo.OrganizationDefaultsKept | src/lib/seo.ts:136-155 | An Organization keeps each default property the caller does not override. |
| Seo.WebSiteDefaultsKept | src/lib/seo.ts:175-187 | A WebSite keeps each default property the caller does not override. |
| Seo.BreadcrumbItems | src/lib/seo.ts:189-198 | For a list of object items the call succeeds and yields one ListItem per item, in order, numbered from 1. Each ListItem's `item` is the site URL plus the item's `url`. |
| Seo.TrailItems | src/lib/seo.ts:189-198 | For a trail of (name, path) pairs, entry i is numbered i + 1, keeps its name, and points at the site URL followed by its path. |
| Seo.BreadcrumbNeedsItems | src/lib/seo.ts:192 | Breadcrumb data without an `items` array throws. |
| Json.Spread | src/lib/seo.ts:154 | Object spread keeps the keys of both objects, and where both have a key the later object's value wins. |
| Strings.JoinAppend | src/lib/seo.ts:60 | Joining two non-empty lists is joining each one, with one separator between them. |
| Robots.RobotsConfig | src/app/robots.ts:4-22 | The sitemap is the site URL + "/sitemap.xml". There are exactly two rules, for "*" then "Googlebot". Both allow "/" and disallow the same four private prefixes in order, none of which is "/". |
| Robots.CrawlableIffNotPrivate | src/app/robots.ts:8-19 | Under longest-match rule resolution, a path is crawlable for either crawler exactly when it starts with none of the private prefixes. |
| ContactAction.AcceptsFields | src/app/contact/actions.ts:5-9 | An object whose name has at least 2 characters, whose email passes the check and whose message has at least 10 characters is accepted. |
| ContactAction.ParseForm | src/app/contact/actions.ts:5-12 | Parsing succeeds exactly when the schema accepts. The parsed fields are the object's strings and meet the length and email rules. |
| ContactAction.SubmitContactForm | src/app/contact/actions.ts:11-35 | Success holds exactly when the input is accepted and nothing throws. Rejected input returns "Invalid form data." with no effect. Accepted input with no throw answers with the success message after exactly five effects: the submission header, the name, email and message lines, and one 1000 ms delay. A throw returns the fixed failure text; its effects are a prefix of those log lines followed by one error line. Only console lines and that delay occur, so nothing is sent. |
| ContactAction.LengthBoundaries | src/app/contact/actions.ts:5-9 | A 2-character name and a 10-character message pass; a 1-character name or a 9-character message fails. |
| ContactAction.MissingNameRejected | src/app/contact/actions.ts:5-16 | An object without `name` is always answered "Invalid form data." with no effect, whatever else it holds. |
| ContactPage.PersonIssues | src/app/contact/page.tsx:29-32 | No issue exactly when the first and last names are non-empty, the email passes, and the phone has at least 5 characters. |
| ContactPage.CompanyIssues | src/app/contact/page.tsx:33-36 | No issue exactly when department, designation and company name are non-empty. |
| ContactPage.AddressIssues | src/app/contact/page.tsx:37-41 | No issue exactly when street number, city, ZIP code, state and country are non-empty. |
| ContactPage.MessageIssues | src/app/contact/page.tsx:42-44 | No issue exactly when the industry is non-empty and the message has 10 to 1000 characters. |
| ContactPage.Validate | src/app/contact/page.tsx:26-55 | No issue exactly when every field rule and the attachment rule hold. An issue on `attachment` exists exactly when the file is over 5 MiB, and it is then the last issue. |
| ContactPage.MessageBounds | src/app/contact/page.tsx:44 | Both message bounds are inclusive: 10 and 1000 characters raise no message issue, while 9 and 1001 fail. |
| ContactPage.AttachmentBoundary | src/app/contact/page.tsx:26-48 | A file of exactly 5 242 880 bytes fits; one byte more does not. |
| ContactPage.DefaultsInvalid | src/app/contact/page.tsx:106-125 | The form's initial values are invalid, and the first issue is the empty first name. |
| ContactPage.PayloadAsWritten | src/app/contact/page.tsx:127-145 | The payload as written holds each text field unchanged under its key. It also holds the file's name, type, size and data URL when there is a file, and nothing else. In particular it has no `name`. |
| ContactPage.PayloadRoundTrip | src/app/contact/page.tsx:127-145 | Reading the payload back gives exactly the submitted values, attachment included. |
| ContactPage.Payload | src/app/contact/page.tsx:127-146 | The corrected payload is the written one plus `name` = first name, space, last name, with every other property unchanged. |
| ContactPage.CorrectedPayloadRoundTrip | src/app/contact/page.tsx:127-146 | The corrected payload also reads back to exactly the submitted values. |
| ContactPage.ValidFormAccepted | src/app/contact/page.tsx:127-146 | Every form that passes the page's schema gives a corrected payload that the server schema accepts. |
| ContactPage.PageSubmissionAlwaysRejected | src/app/contact/page.tsx:127-164 | As written, every submission is answered "Invalid form data." with no effect. The page keeps its state and shows that text in an error toast. |
| ContactPage.Respond | src/app/contact/page.tsx:148-164 | Success resets the form, clears the file and shows a non-error toast. Failure keeps the state and shows an error toast with the server's message, or the fallback text when that is empty. |
| ContactPage.HandleSubmit | src/app/contact/page.tsx:127-164 | As written. Submission is blocked exactly when the values fail the schema, and then it carries the schema's issues, at least one. A valid form aborts, keeping the state and showing no toast, exactly when reading the file throws or the server call rejects. Otherwise the state is kept, no effect occurs, and the error toast shows "Invalid form data.". |
| ContactPage.HandleSubmitCorrected | src/app/contact/page.tsx:127-164 | With the corrected payload: blocking (with the schema's issues) and aborting as written. A sent form resets to the defaults with a non-error toast when the action does not throw; when it throws, the state is kept and the error toast shows the failure text. |
| ContactPage.ContactBreadcrumbs | src/app/contact/page.tsx:61-69 | The contact page's breadcrumbs are Home at position 1 (site URL + "/") and Contact at position 2 (site URL + "/contact"). |
| ContactPage.ContactMetadataTitle | src/app/contact/metadata.ts:4-10 | The contact title does not contain the site name, so the site name is appended to it. |
| ContactPage.ContactMetadataUrl | src/app/contact/metadata.ts:4-10 | The contact page's canonical URL is the site URL + "/contact". |
| ProductPage.CatalogIdsDistinct | src/app/product/page.tsx:41-153 | The three static products have pairwise distinct ids. |
| ProductPage.Anchor | src/app/product/page.tsx:283 | A product's link is "/product#" followed by its id. |
| ProductPage.AnchorRoundTrip | src/app/product/page.tsx:283 | The text after "/product#" in a product's link is that product's id. |
| ProductPage.AnchorInjective | src/app/product/page.tsx:283 | Two links are equal exactly when their ids are. |
| ProductPage.ProductListData | src/app/product/page.tsx:267-285 | The ItemList has exactly its six properties. `numberOfItems` is the number of products, and there is one entry per product, in order. |
| ProductPage.EntriesDescribeProducts | src/app/product/page.tsx:273-284 | Entry i has position i + 1 and copies product i's name and description. Its brand is IOTech, its category "IoT Devices", and the text after "/product#" in its link is product i's id. |
| ProductPage.EntryUrlsDistinct | src/app/product/page.tsx:273-284 | With distinct ids, no two entries share a link. |
| ProductPage.DeadAnchors | src/app/product/page.tsx:181-183 | As written, no section carries an element id, so no entry's "/product#" link lands on any section of the page. |
| ProductPage.AnchorsLandOnTheirSections | src/app/product/page.tsx:273-306 | With each section carrying its product's id and the ids distinct, entry i's link lands on section j exactly when j is i. |
| ProductPage.LayoutAlternates | src/app/product/page.tsx:300-306 | Section 0 is not reversed, neighbouring sections differ, and section i is reversed exactly when i is odd. |
| ProductPage.ProductBreadcrumbs | src/app/product/page.tsx:257-265 | The product page's breadcrumbs are Home at position 1 (site URL + "/") and Products at position 2 (site URL + "/product"). |
| ProductPage.ProductMetadataTitle | src/app/product/metadata.ts:4-10 | The product title ends in "IOTech" after a bar, not the site name, so the site name is appended after it and the brand appears twice. |
| ProductPage.ProductMetadataUrl | src/app/product/metadata.ts:4-10 | The product page's canonical URL is the site URL + "/product". |
| ClientLogos.InitialState | src/components/home/ClientLogos.tsx:20-45 | The strip starts with eight logos with distinct ids 1 to 8, none enhanced and none enhancing. |
| ClientLogos.StartEnhancing | src/components/home/ClientLogos.tsx:51 | Every logo is marked enhancing, and nothing else about any logo changes. |
| ClientLogos.ApplySuccess | src/components/home/ClientLogos.tsx:63-67 | Only the logo with that id changes: it gets the enhanced image and stops enhancing. |
| ClientLogos.ApplyFailure | src/components/home/ClientLogos.tsx:71-75 | Only the logo with that id changes: it stops enhancing and keeps its image. |
| ClientLogos.Run | src/components/home/ClientLogos.tsx:63-75 | A series of updates acts on each logo independently, as that logo's own history of completions. |
| ClientLogos.TrackSettles | src/components/home/ClientLogos.tsx:59-79 | A logo is still enhancing after a series of completions exactly when it was enhancing before and none of them concerned it. |
| ClientLogos.TrackImage | src/components/home/ClientLogos.tsx:59-79 | A logo's enhanced image comes from the last successful completion for it. With no such completion it keeps the image it had. |
| ClientLogos.SuccessCount | src/components/home/ClientLogos.tsx:58-68 | The success count is at most the number of logos. It equals it exactly when every enhancement succeeded. |
| ClientLogos.SuccessCountSingle | src/components/home/ClientLogos.tsx:68 | One outcome counts one exactly when it is a success, and zero otherwise. |
| ClientLogos.SuccessCountAppend | src/components/home/ClientLogos.tsx:58-68 | The count of two runs of outcomes is the sum of their counts. With the single case, the count is the number of successes. |
| ClientLogos.HandleEnhanceLogos | src/components/home/ClientLogos.tsx:49-87 | After the round no logo is enhancing, and ids, names and original images are kept. The notice is titled "Enhancement Complete" and reads "N out of M logos were successfully enhanced.", N being the number of successes and M the number of logos. The final notice is an error exactly when fewer logos succeeded than there are. Equivalently, it is an error exactly when some enhancement failed. |
| ClientLogos.AllSettled | src/components/home/ClientLogos.tsx:59-79 | Every logo receives one completion, so none is still enhancing at the end. |
| ClientLogos.OwnOutcome | src/components/home/ClientLogos.tsx:59-79 | With distinct ids, each logo ends with its own success's image, or with its previous image after a failure. |
| ClientLogos.FinalLogo | src/components/home/ClientLogos.tsx:59-79 | With distinct ids, each logo ends as it started except that it is not enhancing and holds its success's image. |
| ClientLogos.OrderIrrelevant | src/components/home/ClientLogos.tsx:59-79 | With distinct ids, the outcome of the round does not depend on the order in which the enhancements finish. |
| ClientLogos.LogosToDisplay | src/components/home/ClientLogos.tsx:89 | The strip shows the list twice: length 2n, with tile i showing logo i mod n. |
| ClientLogos.Shown | src/components/home/ClientLogos.tsx:107-111 | A tile shows the skeleton exactly when its logo is enhancing. Otherwise a non-empty enhanced image is preferred: it is shown when present, and the original is shown exactly when the enhanced image is missing or empty. |
| ClientLogos.SkeletonsWhileEnhancing | src/components/home/ClientLogos.tsx:51-111 | Once the round starts, every tile of the doubled strip shows a skeleton. |
| ClientLogos.ShownAfterRound | src/components/home/ClientLogos.tsx:105-111 | After a round every tile shows an image. A non-empty success shows its image; a failed logo with no earlier image shows its original. |
| Particles.Bounce | src/components/common/ParticleNetworkAnimation.tsx:45-46 | A velocity component keeps its magnitude. It is negated exactly when the position lies outside [-100, size + 100]. |
| Particles.Update | src/components/common/ParticleNetworkAnimation.tsx:43-49 | Opacity rises by 0.01, capped at 1, and never falls; it stays non-negative. Speeds keep their magnitudes. The particle then moves by its new velocity. |
| Particles.BounceTurnsBack | src/components/common/ParticleNetworkAnimation.tsx:45-46 | A particle past an edge by more than the margin and still moving outward turns back. |
| Particles.FadeIn | src/components/common/ParticleNetworkAnimation.tsx:44 | After n frames, a particle with opacity in [0, 1] has opacity min(opacity + n * 0.01, 1). |
| Particles.UpdateAll | src/components/common/ParticleNetworkAnimation.tsx:131-134 | Every particle is updated, in place and on its own. |
| Particles.PrefilterSound | src/components/common/ParticleNetworkAnimation.tsx:115-120 | If both coordinates differ by more than d (the smaller difference exceeds d), then so does the distance. So the cheap test never skips a pair that should be joined. |
| Particles.ScanRow | src/components/common/ParticleNetworkAnimation.tsx:113-128 | The inner loop for particle i examines the partners from the last down to i + 1, once each. It joins exactly the near ones. |
| Particles.Connections | src/components/common/ParticleNetworkAnimation.tsx:112-129 | Every pair i < j is examined exactly once, and no other pair is. The joined pairs are exactly those within distance d, each listed once. |
| Particles.Frame | src/components/common/ParticleNetworkAnimation.tsx:107-134 | Lines are chosen from the positions before the frame, within 200 units. Only then does every particle move. |
| Particles.IndexOf | src/components/common/ParticleNetworkAnimation.tsx:149 | The result is the first position holding the particle, or -1 exactly when it is absent. |
| Particles.CreateInteraction | src/components/common/ParticleNetworkAnimation.tsx:140-145 | Exactly one new particle is appended, at rest and transparent, and is recorded as the mouse particle. Ids stay distinct. |
| Particles.RemoveInteraction | src/components/common/ParticleNetworkAnimation.tsx:147-154 | With no mouse particle, or with one not in the list, nothing changes, so the record stays set. Otherwise exactly that element is removed, the others keep their order, and the record is cleared. |
| Particles.CreateThenRemove | src/components/common/ParticleNetworkAnimation.tsx:140-154 | Removing the mouse particle right after creating it restores the original list and leaves no mouse particle recorded. |

## Left out

- Rendering: JSX, styling, the contact details and map, the product sections' taglines, images, features and specs, and canvas drawing. They compute nothing.
- The contact page's `contactData` JSON-LD object (src/app/contact/page.tsx:71-105) is a constant with no logic.
- The email check of the schema library is a parameter `isEmail`. The library's internals and its error-message ordering beyond the field order are not modelled.
- Reading the attached file, `fetch`, the AI enhancement flow and console output are I/O or foreign calls. They are parameters (`dataUrl`, `Outcome`, `thrownAfter`). The contact action's console lines are effects recorded as data, with the two exceptions below.
- Timers, `requestAnimationFrame`, event listeners and the promise scheduling are timing and async plumbing. Outcomes are applied in sequence, and the order of completion is a parameter.
- Toast display, the "Enhancing Logos" notice, the `isEnhancingAll` pause flag and the form library's plumbing are UI state with no bearing on the modelled results.
- Particle creation with random placement, colour and radius, and the particle count from the canvas area, are randomness and floating point.
- The mouse-move handler sets the mouse particle's position. `CreateInteraction` takes that position as a parameter.
- Particles.Near: compares squared distances with the squared line distance instead of taking a square root, which is exact on reals. The line opacity computed from that root is not modelled.
- Particles.Update: positions, speeds and opacities are exact reals, not IEEE doubles, so rounding in `opacity + 0.01` is not modelled.
- Seo.GenerateStructuredData: `data` is always an object. The source takes `data: any` (src/lib/seo.ts:126); with `data` undefined the Product case throws when it reads `data.name` and the other cases spread nothing. That input is not modelled.
- ClientLogos.HandleEnhanceLogos: the `console.error` line written for each failed logo (src/components/home/ClientLogos.tsx:70) is not recorded.
- ContactAction.SubmitContactForm: the error line records its fixed header only; the `error` value logged after it (src/app/contact/actions.ts:32) is not recorded.
- Json.ToText: numbers are integers, since every number the modelled builders emit is one. Fractional number printing is not modelled.
- Strings are sequences of Dafny `char`, which are Unicode scalar values, while JavaScript's `length` counts UTF-16 code units. A character outside the Basic Multilingual Plane counts once here and twice in JavaScript, so a name made of one emoji passes `min(2)` in the source but is rejected by the model. Length checks agree only on text within that plane. No Unicode normalisation is modelled.

## Findings

| source | as written | input that shows it | evidently intended | confidence | as-written member | corrected member |
|---|---|---|---|---|---|---|
| src/app/contact/page.tsx:127-146 | `onSubmit` sends `{ ...values }`, which has `firstName` and `lastName` but no `name`. The server schema (src/app/contact/actions.ts:5-9) requires a `name` of at least 2 characters, so every submission is answered "Invalid form data.". | Any valid form, e.g. firstName "Ada", lastName "Lovelace", a valid email and a 10-character message | The payload carries a `name` (first and last name), so a form the page accepts is accepted by the server | high; not executed | ContactPage.PageSubmissionAlwaysRejected | ContactPage.ValidFormAccepted |
| src/lib/seo.ts:170-172 | The Product case computes `url: baseUrl + data.url` and then spreads `...config.data` over it. A caller `url` replaces the absolute URL verbatim, and without one the URL is "https://iotech.comundefined". | data = { url: "/product/hub" } gives url "/product/hub", not "https://iotech.com/product/hub" | `url` is the site URL followed by `data.url`, and is absent when there is none | high; not executed | Seo.ProductUrlNeverAbsolute | Seo.ProductData |
| src/app/product/page.tsx:181-183 | Each ItemList entry links to "/product#" followed by the product id (page.tsx:283), but `ProductSection` renders `<section ref={ref} className=…>` with no `id`. The id is only the React key (page.tsx:302) and a span's text (page.tsx:198), so no fragment matches an element. | The catalog's first entry links to "/product#iot-hub-001", and no element on the page has id "iot-hub-001" | Each section carries `id={product.id}`, so entry i's link scrolls to section i | medium; not executed | ProductPage.DeadAnchors | ProductPage.AnchorsLandOnTheirSections |
