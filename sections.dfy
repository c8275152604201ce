/** A named content section of a problem or contest bundle: the raw text and
    the file it came from, each possibly null, and how a detail page shows it
    (a header with the title, the path if truthy, the body if truthy). */
module Sections {
  import opened Common

  datatype Section = Section(content: Option<string>, filePath: Option<string>)

  datatype SectionView = SectionView(title: string, pathShown: Option<string>, body: Option<string>)

  function RenderSection(title: string, section: Section): (v: SectionView)
    ensures v.title == title
    ensures v.pathShown.Some? <==> Truthy(section.filePath)
    ensures v.pathShown.Some? ==> v.pathShown == section.filePath
    ensures v.body.Some? <==> Truthy(section.content)
    ensures v.body.Some? ==> v.body == section.content
  {
    SectionView(title,
      if Truthy(section.filePath) then section.filePath else None,
      if Truthy(section.content) then section.content else None)
  }
}
