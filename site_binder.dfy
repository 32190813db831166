/**
 * The projection binder of the site query (GetSitesHandler.ModelBinder): it
 * turns each projected row into a fresh site object and shares one partner
 * object per partner id and one admin-entity object per entity id for the
 * whole query, through two caches that only ever gain entries.
 */
module SiteBinder {
  import opened Wrappers

  /** Values the binder copies without inspecting them. */
  datatype DateValue = DateValue(epochMillis: int)
  datatype DoubleValue = DoubleValue(bits: bv64)

  /** One projected row of the site table: the columns the binder reads. */
  datatype SiteRow = SiteRow(
    id: Option<int>,
    activityId: Option<int>,
    date1: Option<DateValue>,
    date2: Option<DateValue>,
    locationName: Option<string>,
    locationAxe: Option<string>,
    status: Option<int>,
    x: Option<DoubleValue>,
    y: Option<DoubleValue>,
    comments: Option<string>,
    partnerId: int,
    partnerName: Option<string>)

  /** The persistent admin entity passed to the binder: its id, its level's id, its name. */
  datatype AdminEntity = AdminEntity(id: int, levelId: int, name: string)

  /** The map `m2` keeps every entry of `m1` with the same value. */
  ghost predicate Extends<K, V>(m1: map<K, V>, m2: map<K, V>) {
    forall k :: k in m1 ==> k in m2 && m2[k] == m1[k]
  }

  class PartnerDTO {
    const id: int
    const name: Option<string>

    constructor (id: int, name: Option<string>)
      ensures this.id == id && this.name == name
    {
      this.id := id;
      this.name := name;
    }
  }

  /** The transfer object the object mapper produces from an admin entity. */
  class AdminEntityDTO {
    const id: int
    const mappedFrom: AdminEntity

    constructor Map(entity: AdminEntity)
      ensures id == entity.id && mappedFrom == entity
    {
      id := entity.id;
      mappedFrom := entity;
    }
  }

  class SiteDTO {
    var id: Option<int>
    var activityId: Option<int>
    var date1: Option<DateValue>
    var date2: Option<DateValue>
    var locationName: Option<string>
    var locationAxe: Option<string>
    var status: Option<int>
    var x: Option<DoubleValue>
    var y: Option<DoubleValue>
    var comments: Option<string>
    var partner: PartnerDTO?
    /** Admin entities by admin level id. */
    var adminEntities: map<int, AdminEntityDTO>
    var attributeValues: map<int, bool>
    var indicatorValues: map<int, DoubleValue>

    constructor ()
      ensures id.None? && activityId.None? && date1.None? && date2.None?
      ensures locationName.None? && locationAxe.None? && status.None?
      ensures x.None? && y.None? && comments.None? && partner == null
      ensures adminEntities == map[] && attributeValues == map[] && indicatorValues == map[]
    {
      id, activityId, date1, date2 := None, None, None, None;
      locationName, locationAxe, status := None, None, None;
      x, y, comments, partner := None, None, None, null;
      adminEntities, attributeValues, indicatorValues := map[], map[], map[];
    }

    /** The scalar setters the binder calls, one per column of the row. */
    method SetScalars(row: SiteRow)
      modifies this`id, this`activityId, this`date1, this`date2, this`locationName,
               this`locationAxe, this`status, this`x, this`y, this`comments
      ensures HoldsScalars(row)
    {
      id, activityId, date1, date2 := row.id, row.activityId, row.date1, row.date2;
      locationName, locationAxe, status := row.locationName, row.locationAxe, row.status;
      x, y, comments := row.x, row.y, row.comments;
    }

    /** The scalar fields hold the row's columns. */
    ghost predicate HoldsScalars(row: SiteRow)
      reads this`id, this`activityId, this`date1, this`date2, this`locationName,
            this`locationAxe, this`status, this`x, this`y, this`comments
    {
      && id == row.id && activityId == row.activityId
      && date1 == row.date1 && date2 == row.date2
      && locationName == row.locationName && locationAxe == row.locationAxe
      && status == row.status && x == row.x && y == row.y
      && comments == row.comments
    }
  }

  class ModelBinder {
    var partners: map<int, PartnerDTO>
    var adminEntities: map<int, AdminEntityDTO>
    /** Every (partner id, partner object) pair handed out so far. */
    ghost var issuedPartners: seq<(int, PartnerDTO)>
    /** Every (entity id, entity object) pair handed out so far. */
    ghost var issuedEntities: seq<(int, AdminEntityDTO)>

    /**
     * Each cache entry is keyed by its object's own id, and every object
     * handed out is the one the cache holds for its id.
     */
    ghost predicate Valid()
      reads this
    {
      && (forall pid :: pid in partners ==> partners[pid].id == pid)
      && (forall eid :: eid in adminEntities ==> adminEntities[eid].id == eid)
      && (forall i :: 0 <= i < |issuedPartners| ==>
            issuedPartners[i].0 in partners && partners[issuedPartners[i].0] == issuedPartners[i].1)
      && (forall i :: 0 <= i < |issuedEntities| ==>
            issuedEntities[i].0 in adminEntities && adminEntities[issuedEntities[i].0] == issuedEntities[i].1)
    }

    constructor ()
      ensures Valid()
      ensures partners == map[] && adminEntities == map[]
      ensures issuedPartners == [] && issuedEntities == []
    {
      partners, adminEntities := map[], map[];
      issuedPartners, issuedEntities := [], [];
    }

    /**
     * Binds the scalar columns of one row into a fresh site and attaches the
     * partner shared by every row with the same partner id; the first row
     * seen for an id decides the partner's name.
     */
    method NewInstance(row: SiteRow) returns (site: SiteDTO)
      requires Valid()
      modifies this`partners, this`issuedPartners
      ensures Valid()
      ensures fresh(site) && site.HoldsScalars(row)
      ensures site.adminEntities == map[] && site.attributeValues == map[] && site.indicatorValues == map[]
      ensures row.partnerId in partners && site.partner == partners[row.partnerId]
      ensures row.partnerId in old(partners) ==>
                site.partner == old(partners)[row.partnerId] && partners == old(partners)
      ensures row.partnerId !in old(partners) ==>
                && fresh(site.partner)
                && site.partner.name == row.partnerName
                && partners == old(partners)[row.partnerId := site.partner]
      ensures Extends(old(partners), partners)
      ensures forall i :: 0 <= i < |old(issuedPartners)| && old(issuedPartners)[i].0 == row.partnerId ==>
                old(issuedPartners)[i].1 == site.partner
      ensures issuedPartners == old(issuedPartners) + [(row.partnerId, site.partner)]
    {
      site := new SiteDTO();
      site.SetScalars(row);
      var partner := SharedPartner(row.partnerId, row.partnerName);
      site.partner := partner;
    }

    /** The cached partner for `id`, created with `name` the first time `id` is seen. */
    method SharedPartner(id: int, name: Option<string>) returns (partner: PartnerDTO)
      requires Valid()
      modifies this`partners, this`issuedPartners
      ensures Valid()
      ensures id in partners && partner == partners[id]
      ensures id in old(partners) ==> partner == old(partners)[id] && partners == old(partners)
      ensures id !in old(partners) ==>
                fresh(partner) && partner.name == name && partners == old(partners)[id := partner]
      ensures Extends(old(partners), partners)
      ensures forall i :: 0 <= i < |old(issuedPartners)| && old(issuedPartners)[i].0 == id ==>
                old(issuedPartners)[i].1 == partner
      ensures issuedPartners == old(issuedPartners) + [(id, partner)]
    {
      if id in partners {
        partner := partners[id];
      } else {
        partner := new PartnerDTO(id, name);
        partners := partners[id := partner];
      }
      issuedPartners := issuedPartners + [(id, partner)];
    }

    /**
     * Attaches to the site, under the entity's level id, the transfer object
     * shared by every call with the same entity id; it is mapped from the
     * entity the first time that id is seen.
     */
    method SetAdminEntity(site: SiteDTO, entity: AdminEntity)
      requires Valid()
      modifies this`adminEntities, this`issuedEntities, site`adminEntities
      ensures Valid()
      ensures entity.id in adminEntities
      ensures site.adminEntities == old(site.adminEntities)[entity.levelId := adminEntities[entity.id]]
      ensures entity.id in old(adminEntities) ==> adminEntities == old(adminEntities)
      ensures entity.id !in old(adminEntities) ==>
                && fresh(adminEntities[entity.id])
                && adminEntities[entity.id].mappedFrom == entity
                && adminEntities == old(adminEntities)[entity.id := adminEntities[entity.id]]
      ensures Extends(old(adminEntities), adminEntities)
      ensures forall i :: 0 <= i < |old(issuedEntities)| && old(issuedEntities)[i].0 == entity.id ==>
                old(issuedEntities)[i].1 == adminEntities[entity.id]
      ensures issuedEntities == old(issuedEntities) + [(entity.id, adminEntities[entity.id])]
    {
      var model: AdminEntityDTO;
      if entity.id in adminEntities {
        model := adminEntities[entity.id];
      } else {
        model := new AdminEntityDTO.Map(entity);
        adminEntities := adminEntities[entity.id := model];
      }
      site.adminEntities := site.adminEntities[entity.levelId := model];
      issuedEntities := issuedEntities + [(entity.id, model)];
    }

    /** Writes the attribute value straight into the site; the caches are untouched. */
    method SetAttributeValue(site: SiteDTO, attributeId: int, value: bool)
      modifies site`attributeValues
      ensures site.attributeValues == old(site.attributeValues)[attributeId := value]
    {
      site.attributeValues := site.attributeValues[attributeId := value];
    }

    /**
     * Writes the indicator value straight into the site; the aggregation
     * method is not looked at.
     */
    method AddIndicatorValue(site: SiteDTO, indicatorId: int, aggregationMethod: int, value: DoubleValue)
      modifies site`indicatorValues
      ensures site.indicatorValues == old(site.indicatorValues)[indicatorId := value]
    {
      site.indicatorValues := site.indicatorValues[indicatorId := value];
    }
  }

  /**
   * Two rows with the same partner id, bound one after the other by the
   * same binder, get the very same partner object, whatever their names.
   */
  method BindTwoRows(binder: ModelBinder, first: SiteRow, second: SiteRow)
      returns (a: SiteDTO, b: SiteDTO)
    requires binder.Valid()
    requires first.partnerId == second.partnerId
    modifies binder`partners, binder`issuedPartners
    ensures binder.Valid()
    ensures a.partner == b.partner && a.partner != null
    ensures a.partner.name == (if first.partnerId in old(binder.partners)
                               then old(binder.partners)[first.partnerId].name
                               else first.partnerName)
  {
    a := binder.NewInstance(first);
    b := binder.NewInstance(second);
  }
}
