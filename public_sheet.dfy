/** Another user's sheet, as the public page shows it. */
module PublicSheet {
  import opened Wrappers
  import opened Types
  import opened ApplicationFilter

  /** What `/api/sheet/getById` returns: `PublicSheet`. */
  datatype SheetData = SheetData(title: string, applications: seq<Application>, visibility: bool)

  /** The three ways the component can render. */
  datatype View = Loading | Private | Table(title: string, rows: seq<Application>)

  /** The render gate: loading is checked first, then visibility; only a loaded public sheet
      shows its (filtered) rows. */
  function RenderSheet(isLoading: bool, isPublic: bool, title: string, apps: seq<Application>, f: Filters): (r: View)
    ensures isLoading <==> r.Loading?
    ensures r.Private? <==> !isLoading && !isPublic
    ensures r.Table? ==> r.title == title && r.rows == FilterApplications(apps, f)
  {
    if isLoading then Loading
    else if !isPublic then Private
    else Table(title, FilterApplications(apps, f))
  }

  /** A private sheet shows no rows, whatever the filters. */
  lemma PrivateShowsNoRows(title: string, apps: seq<Application>, f: Filters, g: Filters)
    ensures RenderSheet(false, false, title, apps, f) == RenderSheet(false, false, title, apps, g) == Private
  {
  }

  /** With the filters cleared, a loaded public sheet shows every application. */
  lemma {:induction false} ClearedShowsSheet(title: string, apps: seq<Application>)
    ensures RenderSheet(false, true, title, apps, Cleared) == Table(title, apps)
  {
    ClearedShowsAll(apps);
  }

  class Component {
    var title: string
    var applications: seq<Application>
    var isPublic: bool
    var isLoading: bool
    var filters: Filters

    /** The first render: loading, empty, private, no filter. */
    constructor ()
      ensures title == "" && applications == [] && !isPublic && isLoading && filters == Cleared
    {
      title := "";
      applications := [];
      isPublic := false;
      isLoading := true;
      filters := Cleared;
    }

    function Render(): View
      reads this
    {
      RenderSheet(isLoading, isPublic, title, applications, filters)
    }

    /** `loadData`. `data` is the fetched sheet, `None` when there is none: then reading its
        `title` throws after `setIsLoading(true)`, and the page stays "Loading..." for good. */
    method LoadData(data: Option<SheetData>)
      modifies this`title, this`applications, this`isPublic, this`isLoading
      ensures data.None? ==> isLoading && title == old(title) && applications == old(applications)
                             && isPublic == old(isPublic)
      ensures data.Some? ==> !isLoading && title == data.value.title
                             && applications == data.value.applications && isPublic == data.value.visibility
    {
      isLoading := true;
      if data.None? {
        return;
      }
      title := data.value.title;
      applications := data.value.applications;
      isPublic := data.value.visibility;
      isLoading := false;
    }

    method SetFilters(f: Filters)
      modifies this`filters
      ensures filters == f
    {
      filters := f;
    }

    /** `clearFilters`. */
    method ClearFilters()
      modifies this`filters
      ensures filters == Cleared
      ensures !isLoading && isPublic ==> Render() == Table(title, applications)
    {
      filters := Cleared;
      ClearedShowsAll(applications);
    }
  }
}
