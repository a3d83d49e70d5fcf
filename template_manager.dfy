/**
 The resolver object: it normalises its directory and probes for a default
 template once at construction, then answers lookups from a cache that only
 specific templates enter, and renders what it finds. The file system, the
 two renderers and the optional content modifier are parameters of the calls.
 */
module TemplateManager {
  import opened TemplateSpec

  class StringTemplateManager {
    /** Found specific templates, keyed by CacheKey(collection, blueprint). */
    var templateCache: Cache
    /** The template directory, always ending with '/'. */
    var templateDirectory: string
    var hasDefaultTemplate: bool
    var defaultFileDetails: Option<TemplateDetails>
    /** Existence checks made so far; not kept by the resolver itself, it
        records how often the file system was consulted. */
    ghost var probes: nat

    ghost predicate Valid()
      reads this
    {
      && EndsWith(templateDirectory, "/")
      && hasDefaultTemplate == defaultFileDetails.Some?
      && ExtensionsKnown(templateCache, defaultFileDetails)
    }

    /** Stores the directory with a trailing '/' and keeps the first default
        template found, in extension order, as seen in `fs`. */
    constructor (directory: string, fs: FileSystem)
      ensures Valid()
      ensures templateDirectory == NormalizeDirectory(directory)
      ensures defaultFileDetails == FirstExisting(fs, DefaultPrefix(templateDirectory), TemplateExtensions)
      ensures templateCache == map[]
      ensures probes == ProbeCount(fs, DefaultPrefix(templateDirectory), TemplateExtensions)
    {
      templateDirectory := directory;
      templateCache := map[];
      hasDefaultTemplate := false;
      defaultFileDetails := None;
      probes := 0;
      new;
      if !EndsWith(templateDirectory, "/") {
        templateDirectory := templateDirectory + "/";
      }
      assert templateDirectory == NormalizeDirectory(directory);
      ghost var normalized := templateDirectory;
      ghost var prefix := DefaultPrefix(normalized);
      var i := 0;
      while i < |TemplateExtensions|
        invariant 0 <= i <= |TemplateExtensions|
        invariant templateDirectory == normalized && templateCache == map[]
        invariant forall j :: 0 <= j < i ==> prefix + TemplateExtensions[j] !in fs
        invariant probes == i
        invariant !hasDefaultTemplate && defaultFileDetails == None
      {
        var extension := TemplateExtensions[i];
        var fileName := templateDirectory + "default" + extension;
        probes := probes + 1;
        if fileName in fs {
          hasDefaultTemplate := true;
          defaultFileDetails := Some(TemplateDetails(fileName, extension, fs[fileName]));
          FirstExistingHit(fs, prefix, TemplateExtensions, i);
          break;
        }
        i := i + 1;
      }
      if !hasDefaultTemplate {
        FirstExistingMiss(fs, prefix, TemplateExtensions);
      }
    }

    /** Whether a lookup of the pair finds a template (cached, specific or default). */
    method HasTemplate(fs: FileSystem, collection: string, blueprint: string) returns (b: bool)
      requires Valid()
      modifies this`templateCache, this`probes
      ensures Valid()
      ensures var o := FindTemplate(old(templateCache), templateDirectory, defaultFileDetails, fs, collection, blueprint);
              && b == o.found.Some?
              && templateCache == o.cache
              && probes == old(probes) + o.probes
    {
      var details := FindBlueprintTemplate(fs, collection, blueprint);
      b := details.Some?;
    }

    /** Renders the template found for the pair, after passing its text
        through `modifier` when one is given; nothing when none is found. */
    method Render<D>(fs: FileSystem, collection: string, blueprint: string, data: D,
                     modifier: Option<(string, D) -> string>,
                     antlers: (string, D) -> string, blade: (string, D) -> string)
      returns (output: Option<string>)
      requires Valid()
      modifies this`templateCache, this`probes
      ensures Valid()
      ensures var o := FindTemplate(old(templateCache), templateDirectory, defaultFileDetails, fs, collection, blueprint);
              && output == RenderFound(o.found, data, modifier, antlers, blade)
              && (output.Some? <==> o.found.Some?)
              && templateCache == o.cache
              && probes == old(probes) + o.probes
    {
      ghost var before := templateCache;
      var templateDetails := FindBlueprintTemplate(fs, collection, blueprint);
      LookupKeepsExtensionsKnown(before, templateDirectory, defaultFileDetails, fs, collection, blueprint);
      if templateDetails.None? {
        return None;
      }
      var extension := templateDetails.value.extension;
      var contents := templateDetails.value.contents;
      if modifier.Some? {
        contents := modifier.value(contents, data);
      }
      if extension == AntlersExtension {
        return Some(antlers(contents, data));
      }
      if extension == BladeExtension {
        return Some(blade(contents, data));
      }
      return None;
    }

    /** The lookup: the cached record if the key is cached; otherwise the
        first specific template in extension order, which is cached;
        otherwise the default record, which is not. */
    method FindBlueprintTemplate(fs: FileSystem, collection: string, blueprint: string)
      returns (details: Option<TemplateDetails>)
      requires Valid()
      modifies this`templateCache, this`probes
      ensures Valid()
      ensures var o := FindTemplate(old(templateCache), templateDirectory, defaultFileDetails, fs, collection, blueprint);
              && details == o.found
              && templateCache == o.cache
              && probes == old(probes) + o.probes
    {
      var cacheKey := "blueprint:" + collection + ":" + blueprint;
      if cacheKey in templateCache {
        return Some(templateCache[cacheKey]);
      }
      ghost var prefix := BlueprintPrefix(templateDirectory, collection, blueprint);
      var i := 0;
      while i < |TemplateExtensions|
        invariant 0 <= i <= |TemplateExtensions|
        invariant templateCache == old(templateCache)
        invariant forall j :: 0 <= j < i ==> prefix + TemplateExtensions[j] !in fs
        invariant probes == old(probes) + i
      {
        var extension := TemplateExtensions[i];
        var templatePath := templateDirectory + collection + "/" + blueprint + extension;
        probes := probes + 1;
        if templatePath in fs {
          var templateDetails := TemplateDetails(templatePath, extension, fs[templatePath]);
          templateCache := templateCache[cacheKey := templateDetails];
          SpecificHitIsCached(old(templateCache), templateDirectory, defaultFileDetails, fs, collection, blueprint, i);
          return Some(templateDetails);
        }
        i := i + 1;
      }
      FallbackIsNotCached(templateCache, templateDirectory, defaultFileDetails, fs, collection, blueprint);
      if !hasDefaultTemplate {
        return None;
      }
      return defaultFileDetails;
    }
  }
}
