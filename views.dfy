/** Where src/Views.php looks for a controller action's template: a directory per
    controller under the template path, a file per method. */
module Views {
  import opened PhpStrings

  /** The template path a `Views` object uses unless it is given another. */
  const DefaultTemplatePath: string := "templates"

  /** The file name suffix of the framework's PHP templates. */
  const PhpTemplateSuffix: string := ".html.php"

  /** The template of a controller's method under `templatePath`: the controller's
      namespace separators become `_`, and `sep` is the platform's directory separator. */
  function TemplateFileWith(templatePath: string, controllerName: string, methodName: string, sep: char,
                            suffix: string): string {
    templatePath + [sep] + ReplaceChar(controllerName, '\\', '_') + [sep] + methodName + suffix
  }

  /** `templateFile`. */
  function TemplateFile(templatePath: string, controllerName: string, methodName: string, sep: char): string {
    TemplateFileWith(templatePath, controllerName, methodName, sep, PhpTemplateSuffix)
  }

  /** The template's path splits into the template path's own levels, one level for the
      controller, with no backslash left, and the file of the method with the suffix. */
  lemma TemplateFileParts(templatePath: string, controllerName: string, methodName: string, sep: char, suffix: string)
    requires sep !in ReplaceChar(controllerName, '\\', '_') && sep !in methodName && sep !in suffix
    ensures var f := TemplateFileWith(templatePath, controllerName, methodName, sep, suffix);
            Split(f, sep) == Split(templatePath, sep) + [ReplaceChar(controllerName, '\\', '_'), methodName + suffix]
    ensures '\\' !in ReplaceChar(controllerName, '\\', '_')
    ensures var f := TemplateFileWith(templatePath, controllerName, methodName, sep, suffix);
            |f| >= |suffix| && f[|f| - |suffix|..] == suffix
  {
    var dir := ReplaceChar(controllerName, '\\', '_');
    var file := methodName + suffix;
    var f := TemplateFileWith(templatePath, controllerName, methodName, sep, suffix);
    assert f == templatePath + [sep] + (dir + [sep] + file);
    SplitGlue(templatePath, sep, dir + [sep] + file);
    assert sep !in file;
    SplitAfter(dir, sep, file);
    SplitNoDelimiter(file, sep);
    assert f == (templatePath + [sep] + dir + [sep] + methodName) + suffix;
  }

  /** Two actions share a template only when their methods agree and their controllers
      agree once namespace separators are replaced. */
  lemma TemplateFileInjective(templatePath: string, c1: string, m1: string, c2: string, m2: string,
                              sep: char, suffix: string)
    requires sep !in ReplaceChar(c1, '\\', '_') && sep !in m1 && sep !in ReplaceChar(c2, '\\', '_') && sep !in m2
    requires sep !in suffix
    ensures TemplateFileWith(templatePath, c1, m1, sep, suffix) == TemplateFileWith(templatePath, c2, m2, sep, suffix)
            <==> ReplaceChar(c1, '\\', '_') == ReplaceChar(c2, '\\', '_') && m1 == m2
  {
    TemplateFileParts(templatePath, c1, m1, sep, suffix);
    TemplateFileParts(templatePath, c2, m2, sep, suffix);
    if TemplateFileWith(templatePath, c1, m1, sep, suffix) == TemplateFileWith(templatePath, c2, m2, sep, suffix) {
      var parts := Split(TemplateFileWith(templatePath, c1, m1, sep, suffix), sep);
      var n := |Split(templatePath, sep)|;
      assert parts[n] == ReplaceChar(c1, '\\', '_') && parts[n] == ReplaceChar(c2, '\\', '_');
      assert parts[n + 1] == m1 + suffix && parts[n + 1] == m2 + suffix;
      assert m1 == (m1 + suffix)[..|m1|];
    }
  }
}
