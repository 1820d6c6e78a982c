/** The Twig views of examples/integrations/TwigViews.php: templates are found the way
    src/Views.php finds them, with the Twig suffix, and are rendered with the method's data
    over the global data. */
module TwigViews {
  import opened Php
  import Views

  const DefaultTemplatePath: string := Views.DefaultTemplatePath

  /** The file name suffix of Twig templates. */
  const TwigTemplateSuffix: string := ".html.twig"

  /** `templateFile`. */
  function TemplateFile(templatePath: string, controllerName: string, methodName: string, sep: char): string {
    Views.TemplateFileWith(templatePath, controllerName, methodName, sep, TwigTemplateSuffix)
  }

  /** The data `render` fills the template with: `array_merge($globalData, $methodData)`. */
  function RenderData(methodData: Array<Value>, globalData: Array<Value>): Array<Value> {
    Merge(globalData, methodData)
  }

  /** A name the method sets hides the global value of the same name; every other global
      name stays visible; values under integer keys are all kept, the global ones first. */
  lemma MethodDataWins(methodData: Array<Value>, globalData: Array<Value>, name: string)
    requires DistinctKeys(methodData) && DistinctKeys(globalData)
    ensures Get(RenderData(methodData, globalData), StrKey(name)) ==
              if StrKey(name) in KeysOf(methodData) then Get(methodData, StrKey(name)) else Get(globalData, StrKey(name))
    ensures IntValues(RenderData(methodData, globalData)) == IntValues(globalData) + IntValues(methodData)
  {
    MergeStringKey(globalData, methodData, name);
    MergeIntValues(globalData, methodData);
  }
}
