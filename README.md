# StringTemplateManager: template resolution with a cached priority probe and a default fallback

This project models the template resolver `StringTemplateManager` of
statamic-template-resolver in Dafny and proves what it promises.

Given a template directory, the resolver decides which file backs a
(collection, blueprint) pair, remembers that decision, and sends the file's
text to one of two renderers:

- **Construction.** The directory is stored with a trailing `/`. The resolver
  then probes `{dir}default{ext}` once, for each extension in the order
  `.antlers.html`, `.blade.php`. The first file that exists is read into the
  default slot, and `hasDefaultTemplate` records whether there was one.
- **Lookup** (`findBlueprintTemplate`). A pair's cache key is
  `"blueprint:" + collection + ":" + blueprint`.
  - If the key is cached, the cached record is returned.
  - Otherwise the resolver probes `{dir}{collection}/{blueprint}{ext}` in
    extension order. The first hit is read, cached under the key and returned.
  - If no file matches, the default record is returned, or nothing when there
    is no default. This fallback is never cached.
- **`hasTemplate`** is true exactly when a lookup finds something.
- **`render`** returns nothing when the lookup finds nothing. Otherwise it
  passes the text through the optional modifier, then calls the Antlers
  renderer for `.antlers.html` or the Blade renderer for `.blade.php`. Any
  other extension returns nothing.

Files:

- `template_spec.dfy` (module `TemplateSpec`) holds:
  - the details record;
  - the extension table;
  - the path and cache-key conventions;
  - the priority probe `FirstExisting`, with its probe count `ProbeCount`;
  - a whole lookup as a pure state transition `FindTemplate`, which returns
    the record found, the new cache and the number of existence checks;
  - render dispatch `RenderFound`;
  - the lemmas stating the resolver's properties.
- `template_manager.dfy` (module `TemplateManager`) holds the class
  `StringTemplateManager`. Its fields are the source's `templateCache`,
  `templateDirectory`, `hasDefaultTemplate` and `defaultFileDetails`, with two
  changes. The fixed `templateExtensions` list (line 16) is the module constant
  `TemplateExtensions`. The `defaultFileDetails` array is an
  `Option<TemplateDetails>`, which is `None` where the source holds `[]`. Its constructor
  and `FindBlueprintTemplate` keep the source's `foreach` loops, as `while`
  loops with a `break` or an early `return`. Each method is proved equal to
  the specification functions.

External things become parameters:

- The file system is a `map<string, string>` passed to each call, so it may
  differ from call to call. `file_exists` is key membership and
  `file_get_contents` is lookup.
- The two renderers and the modifier are total functions of (text, data).
  The data is of an arbitrary type `D` and is passed through unchanged.

The ghost field `probes` is not in the source. It counts existence checks, so
the model can state how often the file system is consulted.

Observed behaviour, not a promise of the source: the cache key is a plain
concatenation. The pairs `("a:b", "c")` and `("a", "b:c")` share a key, so
once one of them is cached, looking up the other returns the first one's
record (`CacheKeyShared`, `SharedKeyReturnsOtherRecord`).

For an extension outside the table, `render` returns null
(src/StringTemplateManager.php:107). This cannot happen, because every record
the resolver holds carries a table extension (`Valid`,
`LookupKeepsExtensionsKnown`).

## Model

| member | source | states |
|---|---|---|
| `TemplateSpec.NormalizeDirectory` | src/StringTemplateManager.php:43-47 | The stored directory ends with `/`. It extends the input by at most one character and keeps the input as a prefix. It equals the input exactly when the input already ended with `/`. |
| `TemplateSpec.FirstExistingHit` | src/StringTemplateManager.php:128-141 | If extension i is the first whose candidate exists, the probe returns that path, that extension and that file's contents. It makes exactly i+1 existence checks, so later extensions are not probed. |
| `TemplateSpec.FirstExistingMiss` | src/StringTemplateManager.php:128-142 | If no candidate exists, the probe returns nothing after checking every extension. |
| `TemplateSpec.FirstHitExists` | src/StringTemplateManager.php:128-142 | If any candidate exists, some extension is the first existing one in table order. |
| `TemplateSpec.FirstExistingCharacterized` | src/StringTemplateManager.php:128-142 | The probe finds something exactly when some candidate exists. What it finds is the first existing candidate in table order, as read from the file system. |
| `TemplateSpec.FirstExistingExtension` | src/StringTemplateManager.php:132-136 | A found record's extension is one of the probed extensions. |
| `TemplateSpec.CacheHitIgnoresFileSystem` | src/StringTemplateManager.php:122-126 | A cached key returns the cached record for every file system. It makes no existence checks and leaves the cache unchanged. |
| `TemplateSpec.SpecificHitIsCached` | src/StringTemplateManager.php:128-141 | On a miss whose first existing specific file is extension i, lookup returns that file's record. It inserts exactly that record under `blueprint:c:b`, leaves every other entry alone and makes i+1 checks. |
| `TemplateSpec.FallbackIsNotCached` | src/StringTemplateManager.php:144-148 | On a miss with no specific file, lookup returns the default record, or nothing if there is none. The cache is unchanged and every extension was checked. |
| `TemplateSpec.AntlersHasPriority` | src/StringTemplateManager.php:128-141 | If both the `.antlers.html` and `.blade.php` files exist, the Antlers one is chosen after one check. |
| `TemplateSpec.ResolvedLookupIsStable` | src/StringTemplateManager.php:122-141 | Once a lookup leaves its key in the cache, repeating it against any later file system returns the same record with no checks and no cache change. |
| `TemplateSpec.FallbackRepeatsProbe` | src/StringTemplateManager.php:128-148 | A default or null fallback leaves the resolver as it was. Repeating the lookup gives the same outcome and again makes both existence checks. |
| `TemplateSpec.FoundIff` | src/StringTemplateManager.php:73 | Lookup finds a template exactly when one of these holds: the key is cached, some specific file exists, or a default record exists. |
| `TemplateSpec.CacheOnlyGrows` | src/StringTemplateManager.php:124-138 | Lookup never evicts or replaces a cache entry. The only key it can add is the looked-up one. |
| `TemplateSpec.LookupKeepsExtensionsKnown` | src/StringTemplateManager.php:128-148 | Lookup preserves the invariant that every cached record and the default carry a table extension. The record it returns carries one too. |
| `TemplateSpec.CacheKeyShared` | src/StringTemplateManager.php:122 | The cache key of ("a:b", "c") equals the cache key of ("a", "b:c"). |
| `TemplateSpec.SharedKeyReturnsOtherRecord` | src/StringTemplateManager.php:122-129 | After ("a:b", "c") resolves to a specific file, a lookup of ("a", "b:c") returns that same record, on any file system. |
| `TemplateSpec.RenderSomeIffFound` | src/StringTemplateManager.php:85-107 | For records with a table extension, render produces output exactly when lookup found a record. |
| `TemplateSpec.ModifierAppliedBeforeRendering` | src/StringTemplateManager.php:95-97 | With a modifier, rendering gives the same result as rendering, without a modifier, a record whose contents are the modifier's output. |
| `TemplateSpec.RenderSelectsRenderer` | src/StringTemplateManager.php:99-107 | `.antlers.html` contents go to the Antlers renderer and `.blade.php` contents to the Blade renderer. Any other extension renders nothing. |
| `TemplateManager.StringTemplateManager.constructor` | src/StringTemplateManager.php:41-63 | The directory is stored normalised and the cache is empty. The default slot is the first `{dir}default{ext}` that exists, in table order, or empty. `hasDefaultTemplate` says which. The probe made exactly the checks the priority probe makes. |
| `TemplateManager.StringTemplateManager.HasTemplate` | src/StringTemplateManager.php:71-74 | Returns whether the lookup finds a record. It updates the cache and the check count exactly as the lookup does. |
| `TemplateManager.StringTemplateManager.Render` | src/StringTemplateManager.php:83-108 | Returns the modified contents rendered by the renderer for the found record's extension, or nothing when the lookup finds nothing. The output exists exactly when a record was found. The cache and check count follow the lookup. |
| `TemplateManager.StringTemplateManager.FindBlueprintTemplate` | src/StringTemplateManager.php:120-149 | Returns what the lookup finds, and the new cache and added check count are the lookup's. The object invariant is kept: directory ends with `/`, the default flag matches the slot, and every record has a known extension. |

## Left out

- Real file I/O is not modelled. The file system is a path-to-contents map given to each call.
  - A failed `file_get_contents`, which returns `false`, is not modelled.
  - A directory that satisfies `file_exists` is not modelled.
- The Antlers and Blade engines (src/StringTemplateManager.php:110-118) are opaque total functions passed in as parameters.
  - The `(string)` cast of the Antlers result is folded into the Antlers function.
  - Errors raised by an engine propagate to the caller unchanged in the source. The model does not represent them.
- The meaning of the `$data` array is not modelled. The data is of an arbitrary type and passed through unchanged.
- The user-supplied modifier is an arbitrary function from text and data to text.
  - The source does not declare strict types, so PHP converts a modifier result that is an int, float, bool or `Stringable` object to text before rendering (lines 100, 104, 110, 115). A modifier that returns text covers these cases.
  - A modifier result that PHP cannot convert to text (null, an array, another object) makes PHP throw a `TypeError`. This is not modelled.
  - A modifier that throws an exception is not modelled. In the source the exception propagates out of `render`.
- PHP's default arguments are not modelled. `render` always takes the data, and the modifier as an optional value.
- The details array is a record. PHP's truthiness test on it at line 87 becomes `None`/`Some`: a details array always has three entries, so it is never falsy.
- The extension table is the source's fixed two-entry list. The probe lemmas are stated for any list.
- Concurrency and cache sharing across requests are not modelled. The class is single-threaded, in-memory state.
- Path sanitisation is not modelled because the source does none. Handles containing `..` or `/` are used verbatim in paths.
