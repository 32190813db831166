# Site query, site binder, report dispatch and log-frame ids, modelled in Dafny

This project models four small pieces of decision logic from the ActivityInfo/Sigmah server and client:

- **Site query assembly** (`GetSitesHandler.execute`, module `SiteQuery`). A `GetSites` command becomes three things: a conjunction of criteria, an ordering of at most one element, and a page offset. The site table is then asked for one page and for the total count. The narrowing rule is a precedence chain: site id, then activity id, then database id. Sort fields are matched first by exact name, then by the indicator prefix, then by the `"a"` prefix. A seek to a site replaces the offset with page number × limit, computed in Java `int` arithmetic.
- **The projection binder** (`GetSitesHandler.ModelBinder`, module `SiteBinder`). This is a class with two caches, `partners` and `adminEntities`, that only ever gain entries. Every row with the same partner id gets the very same partner object. Every entity id gets the very same admin-entity object, attached to the site under the entity's level id. Attribute and indicator values go straight into the site.
- **Report render dispatch** (`ItextReportRenderer`, module `ItextRender`). The document is the sequence of events written into it: `Open`, `Title`, `FilterDescription`, `RenderWith(renderer, element)`, `Close`. A parameter `fails` says which writes raise an exception. A render performs the writes of its full trace in order and stops at the first one that raises, so on that path the document is never closed.
- **Log-frame element ids** (`LogFrameElementDTO`, module `LogFrame`). This is a class over a property map. Each setter writes its own key. `getId` falls back to -1. `getClientSideId` returns the server id, else the temporary id, and otherwise generates a temporary id from the clock (passed in as `now`), stores it, and returns that id on later calls as long as no server id is set.

`JavaInt` models Java's 32-bit `int` narrowing. It is used for `pageNum * limit` and for the `(int)` cast of the clock reading. `Wrappers` holds the `Option` type that stands for a Java reference that may be null.

Three behaviours of the handler and renderer worth noting:
- Narrowing is a precedence chain, not a mutual exclusion.
- The indicator found for an indicator sort field is used without a null check.
- No `finally` closes the document when a render fails.

## Model

| member | source | states |
|---|---|---|
| JavaInt.Wrap | sigmah/src/main/java/org/sigmah/shared/dto/logframe/LogFrameElementDTO.java:121 | the narrowed value is a Java int, congruent to the exact value modulo 2^32, and equal to it when it already fits |
| SiteQuery.CriteriaWanted | sigmah/src/main/java/org/activityinfo/server/endpoint/gwtrpc/handler/GetSitesHandler.java:75-99 | the criteria are exactly the wanted conjuncts (site id, else activity id, else database id; assessment flag, text filter and pivot filter exactly when set), each once, with at most one narrowing equality (`Eq` on the site, activity or database id) |
| SiteQuery.NarrowingWanted | sigmah/src/main/java/org/activityinfo/server/endpoint/gwtrpc/handler/GetSitesHandler.java:76-84 | at most one narrowing equality, and an equality is present exactly when the precedence chain wants it |
| SiteQuery.ExtrasWanted | sigmah/src/main/java/org/activityinfo/server/endpoint/gwtrpc/handler/GetSitesHandler.java:85-99 | the assessment, text-filter and pivot-filter conjuncts are present exactly when their fields are set, once each, and none is a narrowing equality (the assessment conjunct is the fixed `AssessmentOnly`, not an `Eq`) |
| SiteQuery.BuildCriteria | sigmah/src/main/java/org/activityinfo/server/endpoint/gwtrpc/handler/GetSitesHandler.java:75-99 | the conjunction built step by step equals the criteria specified above |
| SiteQuery.SiteIdOverridesNarrowing | sigmah/src/main/java/org/activityinfo/server/endpoint/gwtrpc/handler/GetSitesHandler.java:76-84 | with a site id, any activity id and database id leave the criteria unchanged |
| SiteQuery.ActivityIdOverridesDatabaseId | sigmah/src/main/java/org/activityinfo/server/endpoint/gwtrpc/handler/GetSitesHandler.java:78-84 | without a site id but with an activity id, any database id leaves the criteria unchanged |
| SiteQuery.CriteriaIgnorePaging | sigmah/src/main/java/org/activityinfo/server/endpoint/gwtrpc/handler/GetSitesHandler.java:75-99 | sort, offset, limit and seek id do not affect the criteria, so they do not affect the count either |
| SiteQuery.FixedColumnRoundTrip | sigmah/src/main/java/org/activityinfo/server/endpoint/gwtrpc/handler/GetSitesHandler.java:111-120 | date1, date2, locationName, partner and locationAxe correspond one-to-one with the columns they sort on |
| SiteQuery.OrderBy | sigmah/src/main/java/org/activityinfo/server/endpoint/gwtrpc/handler/GetSitesHandler.java:170-176 | the order is on the given column, and it is ascending exactly when the direction is ASC (any other direction gives descending) |
| SiteQuery.SortOrder | sigmah/src/main/java/org/activityinfo/server/endpoint/gwtrpc/handler/GetSitesHandler.java:105-138 | at most one order; empty exactly when the direction is NONE or the field is unrecognised; ascending exactly when ASC; a fixed name wins over both prefixes, the indicator prefix over "a"; the indicator order carries whatever the lookup returns |
| SiteQuery.BuildOrder | sigmah/src/main/java/org/activityinfo/server/endpoint/gwtrpc/handler/GetSitesHandler.java:105-138 | the order list built by the branch chain equals the specified sort order |
| SiteQuery.FixedNameIgnoresLookups | sigmah/src/main/java/org/activityinfo/server/endpoint/gwtrpc/handler/GetSitesHandler.java:111-136 | a fixed sort name never consults the indicator or admin-level lookups |
| SiteQuery.PageStart | sigmah/src/main/java/org/activityinfo/server/endpoint/gwtrpc/handler/GetSitesHandler.java:151 | the offset is pageNum × limit up to 32-bit wrap-around; when that product fits, it is a non-negative multiple of limit whose quotient is the page number |
| SiteQuery.Execute | sigmah/src/main/java/org/activityinfo/server/endpoint/gwtrpc/handler/GetSitesHandler.java:69-168 | the offset is the command's own unless a seek id and a positive limit are given, and then it is the page start of the page number; the page-number query, the page query and the count all get the same criteria; the total is the count of the criteria alone |
| SiteQuery.ActivitySortedByDate1 | sigmah/src/main/java/org/activityinfo/server/endpoint/gwtrpc/handler/GetSitesHandler.java:78-112 | activity 7 sorted by date1 descending gives one activity conjunct, one descending date1 order, and no seek |
| SiteBinder.PartnerDTO.constructor | sigmah/src/main/java/org/activityinfo/server/endpoint/gwtrpc/handler/GetSitesHandler.java:201-203 | a partner holds the partner id and name of the row that created it |
| SiteBinder.AdminEntityDTO.Map | sigmah/src/main/java/org/activityinfo/server/endpoint/gwtrpc/handler/GetSitesHandler.java:218 | the mapped transfer object has the entity's id and comes from that entity |
| SiteBinder.SiteDTO.SetScalars | sigmah/src/main/java/org/activityinfo/server/endpoint/gwtrpc/handler/GetSitesHandler.java:186-196 | the site's scalar fields hold the row's columns |
| SiteBinder.ModelBinder.constructor | sigmah/src/main/java/org/activityinfo/server/endpoint/gwtrpc/handler/GetSitesHandler.java:181-182 | a new binder starts with both caches empty |
| SiteBinder.ModelBinder.NewInstance | sigmah/src/main/java/org/activityinfo/server/endpoint/gwtrpc/handler/GetSitesHandler.java:185-212 | a fresh site with the row's scalars; its partner is the cached one for the id (the same object every earlier row with that id got), or a fresh one named from this row that is added to the cache; no cache entry is removed or replaced |
| SiteBinder.ModelBinder.SharedPartner | sigmah/src/main/java/org/activityinfo/server/endpoint/gwtrpc/handler/GetSitesHandler.java:197-203 | the partner for an id is the cached one when the id was seen before (the same object every earlier lookup got, cache unchanged), otherwise a fresh partner with the given name that is added to the cache; no entry is removed or replaced |
| SiteBinder.ModelBinder.SetAdminEntity | sigmah/src/main/java/org/activityinfo/server/endpoint/gwtrpc/handler/GetSitesHandler.java:215-223 | the site gets, under the entity's level id, the object cached for the entity id (mapped and cached the first time); the cache only grows |
| SiteBinder.ModelBinder.SetAttributeValue | sigmah/src/main/java/org/activityinfo/server/endpoint/gwtrpc/handler/GetSitesHandler.java:226-231 | the attribute value is written straight to the site; the binder is untouched |
| SiteBinder.ModelBinder.AddIndicatorValue | sigmah/src/main/java/org/activityinfo/server/endpoint/gwtrpc/handler/GetSitesHandler.java:234-239 | the indicator value is written straight to the site; the aggregation method is ignored |
| SiteBinder.BindTwoRows | sigmah/src/main/java/org/activityinfo/server/endpoint/gwtrpc/handler/GetSitesHandler.java:198-207 | two rows with the same partner id get the identical partner object, named by the first row seen |
| ItextRender.RendererFor | sigmah/src/main/java/org/activityinfo/server/report/renderer/itext/ItextReportRenderer.java:86-98 | pivot table → pivot-table renderer, pivot chart → chart, map → map, table → table; every other kind, nested reports included, → null renderer |
| ItextRender.ExecutedIsPassingPrefix | sigmah/src/main/java/org/activityinfo/server/report/renderer/itext/ItextReportRenderer.java:39-53 | the writes that happen are a prefix of the trace, none of them raises, and if they stop short, the next write is one that raises |
| ItextRender.ElementsTraceRendersOnly | sigmah/src/main/java/org/activityinfo/server/report/renderer/itext/ItextReportRenderer.java:73-75 | the children add only renders, by a real renderer, of the report's own children |
| ItextRender.ChildrenRenderedInOrder | sigmah/src/main/java/org/activityinfo/server/report/renderer/itext/ItextReportRenderer.java:73-75 | children that all have a renderer are rendered once each, in list order, by the renderer of their kind |
| ItextRender.UnknownChildSkipped | sigmah/src/main/java/org/activityinfo/server/report/renderer/itext/ItextReportRenderer.java:95-105 | a child with no renderer adds nothing, and its siblings render as if it were absent |
| ItextRender.ReportTrace | sigmah/src/main/java/org/activityinfo/server/report/renderer/itext/ItextReportRenderer.java:40-50 | a report gives open, title, filter description, the children's renders, close; with no children, just open, title, filter, close |
| ItextRender.SingleElementTrace | sigmah/src/main/java/org/activityinfo/server/report/renderer/itext/ItextReportRenderer.java:46-48 | any other root is rendered once, with no title or filter description |
| ItextRender.TraceBracketed | sigmah/src/main/java/org/activityinfo/server/report/renderer/itext/ItextReportRenderer.java:40-50 | a complete render starts with open and ends with close, and opens and closes nowhere else |
| ItextRender.AbortSkipsClose | sigmah/src/main/java/org/activityinfo/server/report/renderer/itext/ItextReportRenderer.java:39-53 | a render in which any write raises never reaches close |
| ItextRender.FullRun | sigmah/src/main/java/org/activityinfo/server/report/renderer/itext/ItextReportRenderer.java:42-50 | the body's writes happen only if opening succeeded, and close only if the body completed |
| ItextRender.Document.constructor | sigmah/src/main/java/org/activityinfo/server/report/renderer/itext/ItextReportRenderer.java:40 | a new document holds nothing |
| ItextRender.Document.Write | sigmah/src/main/java/org/activityinfo/server/report/renderer/itext/ItextReportRenderer.java:42-50 | a write either appends its event or raises and leaves the document as it was |
| ItextRender.RunRenderer | sigmah/src/main/java/org/activityinfo/server/report/renderer/itext/ItextReportRenderer.java:100-105 | the null renderer writes nothing and never raises; a real renderer writes one render event or raises |
| ItextRender.RenderElement | sigmah/src/main/java/org/activityinfo/server/report/renderer/itext/ItextReportRenderer.java:78-84 | the document gains the executed part of the element's contribution, and the call succeeds exactly when all of it ran |
| ItextRender.RenderChildren | sigmah/src/main/java/org/activityinfo/server/report/renderer/itext/ItextReportRenderer.java:73-75 | the children render in list order, up to the first that raises |
| ItextRender.RenderReport | sigmah/src/main/java/org/activityinfo/server/report/renderer/itext/ItextReportRenderer.java:68-76 | title, then filter description, then the children, up to the first write that raises |
| ItextRender.Render | sigmah/src/main/java/org/activityinfo/server/report/renderer/itext/ItextReportRenderer.java:37-54 | a failed writer creation writes nothing; otherwise the document holds the executed part of the full trace, and the render completes exactly when all of it ran, close included |
| LogFrame.LogFrameElementDTO.constructor | sigmah/src/main/java/org/sigmah/shared/dto/logframe/LogFrameElementDTO.java:18-20 | a new element has no properties, an empty indicator list, id -1 and no client id yet |
| LogFrame.LogFrameElementDTO.ServerId | sigmah/src/main/java/org/sigmah/shared/dto/logframe/LogFrameElementDTO.java:100 | the boxed server id is present exactly when an int is stored under "id" |
| LogFrame.LogFrameElementDTO.TemporaryId | sigmah/src/main/java/org/sigmah/shared/dto/logframe/LogFrameElementDTO.java:105 | the boxed temporary id is present exactly when an int is stored under "tmpid" |
| LogFrame.LogFrameElementDTO.ClientId | sigmah/src/main/java/org/sigmah/shared/dto/logframe/LogFrameElementDTO.java:100-113 | the id answered without generation, read from the property map: present exactly when an int is stored under "id" or "tmpid"; the "id" value when there is one, otherwise the "tmpid" value |
| LogFrame.LogFrameElementDTO.GetId | sigmah/src/main/java/org/sigmah/shared/dto/logframe/LogFrameElementDTO.java:25-28 | the stored id, or -1 when none is stored |
| LogFrame.LogFrameElementDTO.SetId | sigmah/src/main/java/org/sigmah/shared/dto/logframe/LogFrameElementDTO.java:30-32 | only "id" changes, and getId then returns the id set |
| LogFrame.LogFrameElementDTO.GetCode | sigmah/src/main/java/org/sigmah/shared/dto/logframe/LogFrameElementDTO.java:35-37 | the code is the value stored under "code", or null |
| LogFrame.LogFrameElementDTO.SetCode | sigmah/src/main/java/org/sigmah/shared/dto/logframe/LogFrameElementDTO.java:39-41 | only "code" changes, and getCode then returns the code set (null included) |
| LogFrame.LogFrameElementDTO.GetPosition | sigmah/src/main/java/org/sigmah/shared/dto/logframe/LogFrameElementDTO.java:44-46 | the position is the value stored under "position", or null |
| LogFrame.LogFrameElementDTO.SetPosition | sigmah/src/main/java/org/sigmah/shared/dto/logframe/LogFrameElementDTO.java:48-51 | only "position" changes, and getPosition then returns the position set |
| LogFrame.LogFrameElementDTO.GetRisks | sigmah/src/main/java/org/sigmah/shared/dto/logframe/LogFrameElementDTO.java:55-57 | the risks are the text stored under "risks", or null |
| LogFrame.LogFrameElementDTO.SetRisks | sigmah/src/main/java/org/sigmah/shared/dto/logframe/LogFrameElementDTO.java:59-61 | only "risks" changes, and getRisks then returns the text set |
| LogFrame.LogFrameElementDTO.GetAssumptions | sigmah/src/main/java/org/sigmah/shared/dto/logframe/LogFrameElementDTO.java:64-66 | the assumptions are the text stored under "assumptions", or null |
| LogFrame.LogFrameElementDTO.SetAssumptions | sigmah/src/main/java/org/sigmah/shared/dto/logframe/LogFrameElementDTO.java:68-70 | only "assumptions" changes, and getAssumptions then returns the text set |
| LogFrame.LogFrameElementDTO.GetGroup | sigmah/src/main/java/org/sigmah/shared/dto/logframe/LogFrameElementDTO.java:74-76 | the group is the one stored under "group", or null |
| LogFrame.LogFrameElementDTO.SetGroup | sigmah/src/main/java/org/sigmah/shared/dto/logframe/LogFrameElementDTO.java:78-80 | only "group" changes, and getGroup then returns the group set |
| LogFrame.LogFrameElementDTO.GetIndicators | sigmah/src/main/java/org/sigmah/shared/dto/logframe/LogFrameElementDTO.java:82-84 | returns the element's own list: empty for a new element, the list last set afterwards, null included |
| LogFrame.LogFrameElementDTO.SetIndicators | sigmah/src/main/java/org/sigmah/shared/dto/logframe/LogFrameElementDTO.java:82-88 | getIndicators then returns the list set, a null list included; the property map is untouched |
| LogFrame.LogFrameElementDTO.GetClientSideId | sigmah/src/main/java/org/sigmah/shared/dto/logframe/LogFrameElementDTO.java:97-114 | the server id with the map unchanged; else the temporary id with the map unchanged; else the clock reading narrowed to int, stored under "tmpid"; afterwards the element's client id is the one returned |
| LogFrame.LogFrameElementDTO.GenerateClientSideId | sigmah/src/main/java/org/sigmah/shared/dto/logframe/LogFrameElementDTO.java:120-124 | the clock reading narrowed to int is stored under "tmpid" and returned; nothing else changes |
| LogFrame.ClientSideIdIsStable | sigmah/src/main/java/org/sigmah/shared/dto/logframe/LogFrameElementDTO.java:97-124 | two calls return the same id whatever the clock says; with an existing client id that id is returned and the map is unchanged, otherwise the two calls together store only the first clock-made id under "tmpid" |

## Left out

- The site table's queries (`queryPageNumber`, `query`, `queryCount`) are uninterpreted parameters. Their SQL, their authorisation scoping by user, and the `RETRIEVE_ALL` projection are not modelled. Nothing connects the binder a query uses to the sites it returns.
- SiteQuery.Execute: does not state that the sought site lies on the returned page, or that the total equals the number of matching rows, because both depend on the uninterpreted site-table queries.
- The free-text filter parser and the pivot-filter bridge appear only as the symbolic criteria `Parsed(filter)` and `Pivot(filter)`. A parse failure, which the handler lets propagate as a command exception, is not modelled.
- `IndicatorDTO.PROPERTY_PREFIX`, `IndicatorDTO.indicatorIdForPropertyName`, `AdminLevelDTO.levelIdForProperty` and `IndicatorDAO.findById` are not part of this model. They are parameters (`Lookups`), so their number-format exceptions are not modelled either.
- A null sort info or a null sort field (a NullPointerException in the handler) is not modelled: the sort field is always a string.
- The column-index and cast layer of the binder's `Object[]` rows is replaced by a record of typed columns. A ClassCastException, or a NullPointerException on a null partner id or on an entity without a level, is not modelled.
- Dates and doubles are opaque values. `SiteDTO` and its property names are not part of this model; its admin entities, attributes and indicator values are maps.
- The object mapper is not modelled: a mapped admin-entity object just records the entity it came from.
- The document-writing library is represented only by the events it receives. Not modelled: `createWriter` (its failure is the `writerFails` flag), the theme and filter-description helpers (one `Title` and one `FilterDescription` event), the four concrete element renderers (one `RenderWith` event each, which may raise), and the bytes written to the output stream.
- Whether a write raises is a function `fails` of the event alone, not of what was written before, so two equal events always fail alike: the model cannot express the first of two identical children rendering and the second raising, as an output-stream error after some number of bytes would.
- Report element classes are disjoint variants, so the order of the `instanceof` tests cannot be observed. The element class hierarchy is not part of this model.
- The indicator list of a log-frame element is a value (or null): the aliasing between the list `getIndicators` returns and the element's own list, so that a caller's later changes to that list show through, is not modelled.
- The clock is the parameter `now` of `GetClientSideId`.
- `Indicator.java`, `CreateEntityJS.java` and `JsMapEntry.java` (persistence-entity and JavaScript-bridge glue) are not part of this model. Note that `Indicator.isDeleted` returns true when `dateDeleted` is null (Indicator.java:194), the opposite of what its name says.
