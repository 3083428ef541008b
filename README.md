# Product passport dashboard: form codec and product search

This project models the two pieces of data logic in a web dashboard for
product sustainability passports: records about a product's materials, supply
chain, packaging, environmental impact, care and repair, and end of life, each
kept behind a QR code by a remote HTTP API.

- **The product form** (`components/product-form.tsx`). The form keeps a flat
  record of 62 strings, and the API stores a nested passport `Payload`. Loading
  a passport for editing decodes the payload into the record
  (`convertPayloadToFormData`). Submitting encodes the record into a payload
  (the literal in `handleSubmit`). In create mode the form POSTs the payload
  without its `uuid` to `/create_qr`. In edit mode it PUTs the whole payload to
  `/update_qr/<uuid>`. Each input change overwrites one key of the record
  (`handleInputChange`).
- **The product list** (`app/dashboard/products/page.tsx`). A search box keeps
  the products whose lower-cased name or category contains the lower-cased
  query. The table shows one row per kept product, keyed by its id, or a single
  "No products found" row when none is kept.

Files:

- `wrappers.dfy`: `Option`, standing for a JavaScript value that may be `undefined`.
- `passport.dfy`: module `Passport`, the `Payload` document as nested
  datatypes. Its four tables are sequences. The material and packaging
  components share the datatype `ComponentEntry`, because they have the same
  shape. `CreatePayload` is the payload without its uuid.
- `product_form_codec.dfy`: module `ProductFormCodec`. It holds the form
  record `Form`, its keys `FieldName`, the single-key update `Set`, `Decode`,
  `Encode`, the request choice `SubmitRequest`, and the round-trip lemmas.
- `product_form.dfy`: module `ProductFormComponent`, class `ProductForm`. The
  class holds the component's state (`formData` and the `isEditMode` prop) and
  its handlers.
- `products_page.dfy`: module `ProductsPage`. It holds lower-casing,
  `includes`, the filter, its order/subset/case properties and the table rows.

Field names are the JSON and form keys in camelCase (`product_name` becomes
`productName`, `size_height` becomes `sizeHeight`). The API's spelling
`reparability` is kept.

## Model

| member | source | states |
|---|---|---|
| `ProductFormCodec.Encode` | components/product-form.tsx:271-394 | The payload built on submit has exactly two material components, two manufacturers, two manufacturing processes and two packaging components. Decoding it gives back exactly the form that was encoded. |
| `ProductFormCodec.Decode` | components/product-form.tsx:191-257 | Decoding a payload whose table has no entry 0 (or no entry 1) sets every form field of that missing entry to the empty string: the optional chaining `s[i]?.field` is undefined there and `\|\| ""` turns it into `""`. This holds for each of the four tables. |
| `ProductFormCodec.OrEmpty` | components/product-form.tsx:209-242 | `v \|\| ""` gives `""` for `undefined` and gives any string back unchanged. |
| `ProductFormCodec.DecodeReadsFirstTwoEntries` | components/product-form.tsx:209-242 | Decoding ignores every entry past index 1. A missing entry decodes like a blank one. |
| `ProductFormCodec.EncodeAfterDecode` | components/product-form.tsx:191-257 | Decode then encode gives the payload with each table cut or padded to two entries. Nothing else changes. |
| `ProductFormCodec.EncodeAfterDecodeTwoOfEach` | components/product-form.tsx:298-363 | On a payload whose every table has exactly two entries, decode then encode returns the original payload. |
| `ProductFormCodec.EncodeInjective` | components/product-form.tsx:271-394 | Two different form records never encode to the same payload. Every field, scalar or table cell, reaches the payload. |
| `ProductFormCodec.Set` | components/product-form.tsx:259-265 | After `{ ...prevData, [name]: value }`, field `name` holds `value` and every other field keeps its previous value. |
| `ProductFormCodec.EmptyForm` | components/product-form.tsx:120-183 | Every field of the initial form state is the empty string. |
| `ProductFormCodec.SubmitRequest` | components/product-form.tsx:396-410 | Edit mode sends a PUT to the Lambda URL plus `/update_qr/` plus the form's uuid. The body is the full payload: it carries that same uuid, has two entries per table, and decodes back to the form, which by `TwoOfEachDeterminedByDecode` makes it the encoding of the form. Create mode sends a POST to the Lambda URL plus `/create_qr`. Its body has no uuid; with the form's uuid put back it has two entries per table, and with any uuid put back it decodes to the form with that uuid. The body has a uuid exactly in edit mode. |
| `ProductFormCodec.TwoOfEachDeterminedByDecode` | components/product-form.tsx:298-363 | A payload with two entries per table that decodes to a form is exactly the encoding of that form. |
| `ProductFormCodec.UntouchedEditResendsPayload` | components/product-form.tsx:185-190 | A passport with two entries per table that is loaded and submitted unedited is sent back as exactly the same payload, by PUT to its own uuid's URL. |
| `Passport.WithoutUuid` | components/product-form.tsx:405 | `{ uuid, ...createPayload }` drops the uuid and nothing else. Putting back the uuid (or any other) rebuilds the payload. |
| `Passport.WithoutUuidAfterWithUuid` | components/product-form.tsx:405-409 | Taking the uuid out of a rebuilt payload gives back the create body. |
| `Passport.Normalize` | components/product-form.tsx:298-363 | The reference shape: every table has exactly two entries, and a payload already of that shape is left unchanged. |
| `ProductFormComponent.ProductForm.constructor` | components/product-form.tsx:114-183 | On mount, every field of the form is empty. |
| `ProductFormComponent.ProductForm.LoadInitialData` | components/product-form.tsx:185-190 | When initial data is given, the form becomes its decoding. Otherwise the form is unchanged. |
| `ProductFormComponent.ProductForm.HandleInputChange` | components/product-form.tsx:259-265 | The named field now holds the new value. No other field changes. |
| `ProductFormComponent.ProductForm.SelectCategory` | components/product-form.tsx:476 | The category select sets `category` and no other field. |
| `ProductFormComponent.ProductForm.Submit` | components/product-form.tsx:267-410 | Submitting sends the request `SubmitRequest` gives for the current form and mode. That request carries a uuid exactly in edit mode. |
| `ProductsPage.LowerChar` | app/dashboard/products/page.tsx:62 | Upper-case ASCII letters move down by 32. Every other character is unchanged. No result is an upper-case letter. |
| `ProductsPage.ToLowerCase` | app/dashboard/products/page.tsx:62-63 | Lower-casing keeps the length and lower-cases each character. |
| `ProductsPage.ToLowerCaseIdempotent` | app/dashboard/products/page.tsx:62-63 | Lower-casing twice is the same as lower-casing once. |
| `ProductsPage.Includes` | app/dashboard/products/page.tsx:62-63 | `s.includes(q)` holds exactly when `q` occurs as a contiguous run of `s` at some position. |
| `ProductsPage.IncludesEmpty` | app/dashboard/products/page.tsx:62 | The empty query occurs in every string. |
| `ProductsPage.FilterProducts` | app/dashboard/products/page.tsx:60-64 | The result is no longer than the list. Every kept product matches. A product is in the result exactly when it is in the list and its lower-cased name or category contains the lower-cased query. |
| `ProductsPage.FilterReadsKeptIndices` | app/dashboard/products/page.tsx:60-64 | The filtered list is the product list read at the positions `KeptIndices`. |
| `ProductsPage.KeptIndicesIncrease` | app/dashboard/products/page.tsx:60-64 | Those positions strictly increase. |
| `ProductsPage.KeptIndicesAreMatches` | app/dashboard/products/page.tsx:61-63 | A position is kept exactly when its product matches the query. |
| `ProductsPage.FilterIsSubsequence` | app/dashboard/products/page.tsx:60-64 | The filtered list is a subsequence of the product list, in the original order. |
| `ProductsPage.EmptyQueryKeepsAll` | app/dashboard/products/page.tsx:58-64 | The empty query (the initial search state) keeps every product. |
| `ProductsPage.FilterAppend` | app/dashboard/products/page.tsx:60-64 | Filtering a concatenation gives the concatenation of the filtered parts. |
| `ProductsPage.FilterIdempotent` | app/dashboard/products/page.tsx:60-64 | Filtering the filtered list again with the same query gives the same list. |
| `ProductsPage.FilterIgnoresQueryCase` | app/dashboard/products/page.tsx:62-63 | Two queries that lower-case alike keep the same products. |
| `ProductsPage.FilterWithLoweredQuery` | app/dashboard/products/page.tsx:62-63 | Lower-casing the query beforehand changes nothing. |
| `ProductsPage.TableRows` | app/dashboard/products/page.tsx:112-149 | An empty result gives exactly one row, the "No products found" row. Otherwise there is one row per kept product, in order, keyed by its id. |
| `ProductsPage.RowsForSearch` | app/dashboard/products/page.tsx:60-149 | The empty-state row appears exactly when no product matches the query. Every other row shows a listed product that matches, keyed by its own id. |
| `ProductsPage.InitialPageListsAllSamples` | app/dashboard/products/page.tsx:13-64 | With the sample products and the initial empty query, the table has five rows, one per sample product, in order, keyed by id. |

## Left out

- The network and navigation after the request is chosen are not modelled:
  `fetch`, `response.ok`, `router.push`, `router.back`, `console.log`,
  `console.error` and `JSON.stringify`. These are I/O and library
  serialisation, so the model stops at the `Request` value (method, URL, body).
- The `isLoading` flag is not modelled. It only matters across the `await` of
  the request.
- The tabs (`activeTab`) and all rendering are not modelled: cards, tables,
  the media and QR panels, and the badge variant of the product rows.
- Input bindings are not modelled. `ProductFormComponent.ProductForm.HandleInputChange`
  takes a `FieldName`, not the DOM `name` string. So a name outside the form's
  keys has no counterpart; in JavaScript it would add a property that nothing
  reads.
- Two binding quirks follow from the same choice. The packaging table's inputs
  report the names `component1` … `recycled_percentage1`, not the `packaging_*`
  keys. The `repairability` input has no `value` or `onChange`. Both show what
  the change handler receives, not what it does.
- `ProductsPage.LowerChar`: lower-cases ASCII letters only. JavaScript's
  `toLowerCase` also maps non-ASCII letters under Unicode rules, which are not
  modelled.
- The payload type gives every leaf as a string and every section and table
  as present. Three cases of a JSON document cannot be expressed in these
  types and are outside the model: a leaf that is `null` or missing; a section
  or table array that is missing or `null`, on which `convertPayloadToFormData`
  throws a TypeError; and a `null` table entry in front of a present one,
  which `?.` reads as `""`. A table may only be shorter than two entries.
- The product list's state setters replace the list and the query wholesale
  (`useState`). The filter is modelled as a function of both, not as a class.
  `ProductsPage.InitialProducts` records the sample data. No property of a
  non-empty query is proved about that particular list.
- Other files are not part of this model: `app/dashboard/products/new/page.tsx`
  (a simulated save), `app/page.tsx` and `components/dashboard-nav.tsx` (static
  pages), and the product detail pages.
