/**
 * The Drupal-specific layer of annotated plugin discovery: it turns the
 * plugin type's subdirectory into a namespace fragment, adds the two core
 * annotation namespaces, and derives one plugin namespace per root
 * namespace. The directory scan and the annotation parser of the generic
 * component are not part of this model.
 */
module PluginDiscovery {

  const ComponentAnnotationNamespace := "Drupal\\Component\\Annotation"
  const CoreAnnotationNamespace := "Drupal\\Core\\Annotation"
  const DefaultPluginDefinitionAnnotationName := "Drupal\\Component\\Annotation\\Plugin"
  const PluginSegment := "\\Plugin\\"

  /** A root namespace and the directory it is found in, in the order the
      root iterator yields them. */
  type Root = (string, string)

  /** `str_replace('/', '\', subdir)`: every forward slash becomes a
      backslash and every other character stays where it was. */
  function TranslateSubdir(subdir: string): (r: string)
    ensures |r| == |subdir|
    ensures forall i :: 0 <= i < |subdir| ==> r[i] == (if subdir[i] == '/' then '\\' else subdir[i])
    ensures forall i :: 0 <= i < |r| ==> r[i] != '/'
  {
    if subdir == [] then []
    else [if subdir[0] == '/' then '\\' else subdir[0]] + TranslateSubdir(subdir[1..])
  }

  /** Translating a translated subdirectory changes nothing. */
  lemma TranslateSubdirIdempotent(subdir: string)
    ensures TranslateSubdir(TranslateSubdir(subdir)) == TranslateSubdir(subdir)
  {
  }

  /** A subdirectory without forward slashes is its own translation. */
  lemma TranslateSubdirWithoutSlashes(subdir: string)
    requires forall i :: 0 <= i < |subdir| ==> subdir[i] != '/'
    ensures TranslateSubdir(subdir) == subdir
  {
  }

  /** PHP's `$annotation_namespaces += defaults`: both core annotation
      namespaces are present, each under `<root>/core/lib` unless the caller
      gave its own directory, which is kept; the caller's other entries stay
      as they are and nothing else is added. */
  function WithDefaultAnnotationNamespaces(given: map<string, string>, drupalRoot: string): (r: map<string, string>)
    ensures ComponentAnnotationNamespace in r && CoreAnnotationNamespace in r
    ensures forall k :: k in given ==> k in r && r[k] == given[k]
    ensures forall k :: k in r && k !in given ==>
      (k == ComponentAnnotationNamespace || k == CoreAnnotationNamespace) && r[k] == drupalRoot + "/core/lib"
    ensures r.Keys == given.Keys + {ComponentAnnotationNamespace, CoreAnnotationNamespace}
  {
    var defaults := map[ComponentAnnotationNamespace := drupalRoot + "/core/lib",
                        CoreAnnotationNamespace := drupalRoot + "/core/lib"];
    defaults + given
  }

  /** The plugin namespace derived from a root namespace. */
  function PluginNamespaceKey(namespace: string, subdir: string): (r: string)
    ensures |r| == |namespace| + |PluginSegment| + |subdir|
    ensures r[..|namespace|] == namespace
    ensures r[|namespace|..] == PluginSegment + subdir
  {
    namespace + PluginSegment + subdir
  }

  /** Two roots with different namespaces give different plugin namespaces. */
  lemma PluginNamespaceKeyInjective(a: string, b: string, subdir: string)
    requires PluginNamespaceKey(a, subdir) == PluginNamespaceKey(b, subdir)
    ensures a == b
  {
  }

  /** The map `getPluginNamespaces` builds from the roots: each root, in
      order, sets its plugin namespace to the one-element list of its
      directory, overwriting an earlier root with the same namespace. */
  function PluginNamespaceMap(roots: seq<Root>, subdir: string): (r: map<string, seq<string>>)
  {
    if roots == [] then map[]
    else
      var last := roots[|roots| - 1];
      PluginNamespaceMap(roots[..|roots| - 1], subdir)[PluginNamespaceKey(last.0, subdir) := [last.1]]
  }

  /** No roots, no plugin namespaces. */
  lemma NoRootsNoNamespaces(subdir: string)
    ensures PluginNamespaceMap([], subdir) == map[]
  {
  }

  /** The keys are exactly the plugin namespaces of the roots. */
  lemma {:induction false} PluginNamespaceMapKeys(roots: seq<Root>, subdir: string, k: string)
    ensures k in PluginNamespaceMap(roots, subdir) <==>
      exists i :: 0 <= i < |roots| && k == PluginNamespaceKey(roots[i].0, subdir)
  {
    if roots != [] {
      var init := roots[..|roots| - 1];
      PluginNamespaceMapKeys(init, subdir, k);
      if exists i :: 0 <= i < |init| && k == PluginNamespaceKey(init[i].0, subdir) {
        var i :| 0 <= i < |init| && k == PluginNamespaceKey(init[i].0, subdir);
        assert roots[i] == init[i];
      }
      if exists i :: 0 <= i < |roots| && k == PluginNamespaceKey(roots[i].0, subdir) {
        var i :| 0 <= i < |roots| && k == PluginNamespaceKey(roots[i].0, subdir);
        if i < |init| {
          assert roots[i] == init[i];
        }
      }
    }
  }

  /** The value under a root's plugin namespace is the directory of the last
      root with that namespace. */
  lemma {:induction false} PluginNamespaceMapLastWins(roots: seq<Root>, subdir: string, i: nat)
    requires i < |roots|
    requires forall j :: i < j < |roots| ==> roots[j].0 != roots[i].0
    ensures PluginNamespaceKey(roots[i].0, subdir) in PluginNamespaceMap(roots, subdir)
    ensures PluginNamespaceMap(roots, subdir)[PluginNamespaceKey(roots[i].0, subdir)] == [roots[i].1]
  {
    var n := |roots|;
    if i < n - 1 {
      var init := roots[..n - 1];
      assert init[i] == roots[i];
      forall j | i < j < |init| ensures init[j].0 != init[i].0 {
        assert init[j] == roots[j];
      }
      PluginNamespaceMapLastWins(init, subdir, i);
      if PluginNamespaceKey(roots[n - 1].0, subdir) == PluginNamespaceKey(roots[i].0, subdir) {
        PluginNamespaceKeyInjective(roots[n - 1].0, roots[i].0, subdir);
      }
    }
  }

  /** Every plugin namespace ends in `\Plugin\` followed by the subdir. */
  lemma PluginNamespaceMapSuffix(roots: seq<Root>, subdir: string, k: string)
    requires k in PluginNamespaceMap(roots, subdir)
    ensures |k| >= |PluginSegment + subdir|
    ensures k[|k| - |PluginSegment + subdir|..] == PluginSegment + subdir
  {
    PluginNamespaceMapKeys(roots, subdir, k);
  }

  /** There are never more plugin namespaces than roots. */
  lemma {:induction false} PluginNamespaceMapSizeAtMost(roots: seq<Root>, subdir: string)
    ensures |PluginNamespaceMap(roots, subdir)| <= |roots|
  {
    if roots != [] {
      PluginNamespaceMapSizeAtMost(roots[..|roots| - 1], subdir);
    }
  }

  /** Roots with pairwise distinct namespaces give one plugin namespace each. */
  lemma {:induction false} PluginNamespaceMapSizeDistinct(roots: seq<Root>, subdir: string)
    requires forall i, j :: 0 <= i < j < |roots| ==> roots[i].0 != roots[j].0
    ensures |PluginNamespaceMap(roots, subdir)| == |roots|
  {
    if roots != [] {
      var n := |roots|;
      var init := roots[..n - 1];
      forall i, j | 0 <= i < j < |init| ensures init[i].0 != init[j].0 {
        assert init[i] == roots[i] && init[j] == roots[j];
      }
      PluginNamespaceMapSizeDistinct(init, subdir);
      var k := PluginNamespaceKey(roots[n - 1].0, subdir);
      PluginNamespaceMapKeys(init, subdir, k);
      forall i | 0 <= i < |init| ensures k != PluginNamespaceKey(init[i].0, subdir) {
        assert init[i] == roots[i];
      }
    }
  }

  class AnnotatedClassDiscovery {
    /** The plugin type's subdirectory with backslashes, e.g. `views\filter`. */
    var subdir: string
    var rootNamespaces: seq<Root>
    /** What is handed to the generic discovery component. */
    var pluginNamespaces: map<string, seq<string>>
    var annotationNamespaces: map<string, string>
    var pluginDefinitionAnnotationName: string

    /** `subdir` uses forward slashes (`views/filter`); `drupalRoot` is the
        installation's root path, taken as an opaque string. The caller
        passes `DefaultPluginDefinitionAnnotationName` where the PHP code
        uses its default argument. */
    constructor (subdir: string, rootNamespaces: seq<Root>, annotationNamespaces: map<string, string>,
                 pluginDefinitionAnnotationName: string, drupalRoot: string)
      ensures this.subdir == TranslateSubdir(subdir)
      ensures this.rootNamespaces == rootNamespaces
      ensures this.annotationNamespaces == WithDefaultAnnotationNamespaces(annotationNamespaces, drupalRoot)
      ensures this.pluginNamespaces == map[]
      ensures this.pluginDefinitionAnnotationName == pluginDefinitionAnnotationName
    {
      this.subdir := TranslateSubdir(subdir);
      this.rootNamespaces := rootNamespaces;
      this.annotationNamespaces := WithDefaultAnnotationNamespaces(annotationNamespaces, drupalRoot);
      this.pluginNamespaces := map[];
      this.pluginDefinitionAnnotationName := pluginDefinitionAnnotationName;
    }

    /** Walks the roots in order, setting each root's plugin namespace to the
        list holding its directory. */
    method GetPluginNamespaces() returns (r: map<string, seq<string>>)
      ensures r == PluginNamespaceMap(rootNamespaces, subdir)
      ensures forall k :: k in r ==> exists i :: 0 <= i < |rootNamespaces| && k == PluginNamespaceKey(rootNamespaces[i].0, subdir)
    {
      r := map[];
      var i := 0;
      while i < |rootNamespaces|
        invariant 0 <= i <= |rootNamespaces|
        invariant r == PluginNamespaceMap(rootNamespaces[..i], subdir)
      {
        var (namespace, dir) := rootNamespaces[i];
        r := r[PluginNamespaceKey(namespace, subdir) := [dir]];
        assert rootNamespaces[..i + 1][..i] == rootNamespaces[..i];
        i := i + 1;
      }
      assert rootNamespaces[..i] == rootNamespaces;
      forall k | k in r
        ensures exists i :: 0 <= i < |rootNamespaces| && k == PluginNamespaceKey(rootNamespaces[i].0, subdir)
      {
        PluginNamespaceMapKeys(rootNamespaces, subdir, k);
      }
    }
  }
}
