/**
 * The rendered scene as the application drives it through the interface
 * of `Scene` (scene.h): the clouds and meshes it shows, keyed by node id
 * (the odometry cloud is -1, the exported mesh -100), the markers, the
 * rendering switches and the background colour. Drawing is not modelled;
 * a drawable is known by its pose, whether it is shown, its polygons and
 * its gains. The mesh and map rendering switches are fixed for the life of
 * the scene. The bodies encode the behaviour the interface implies: adding
 * replaces a drawable with the same id and shows it, and setters on an id
 * the scene lacks do nothing.
 */
module SceneModel {
  import opened Geometry
  import opened Background

  /** A drawable point cloud or mesh. */
  datatype SceneCloud = SceneCloud(pose: Transform, visible: bool, polygons: seq<Polygon>, gains: Gains)

  class Scene {
    var clouds: map<int, SceneCloud>
    var markers: map<int, Transform>
    const meshRendering: bool
    const mapRendering: bool
    var background: BackgroundColor

    constructor(meshRendering: bool, mapRendering: bool)
      ensures clouds == map[] && markers == map[]
      ensures this.meshRendering == meshRendering && this.mapRendering == mapRendering
      ensures background == UserColor
    {
      clouds := map[];
      markers := map[];
      this.meshRendering := meshRendering;
      this.mapRendering := mapRendering;
      background := UserColor;
    }

    /** `clear`: removes every cloud, mesh and marker. */
    method Clear()
      modifies this
      ensures clouds == map[] && markers == map[]
      ensures background == old(background)
    {
      clouds := map[];
      markers := map[];
    }

    /** `addMesh`: a shown mesh with the given polygons and gains replaces any drawable `id`. */
    method AddMesh(id: int, polygons: seq<Polygon>, gains: Gains, pose: Transform)
      modifies this
      ensures clouds == old(clouds)[id := SceneCloud(pose, true, polygons, gains)]
      ensures markers == old(markers)
      ensures background == old(background)
    {
      clouds := clouds[id := SceneCloud(pose, true, polygons, gains)];
    }

    /** `addCloud`: a shown point cloud without polygons replaces any drawable `id`. */
    method AddCloud(id: int, pose: Transform)
      modifies this
      ensures clouds == old(clouds)[id := SceneCloud(pose, true, [], NeutralGains)]
      ensures markers == old(markers)
      ensures background == old(background)
    {
      clouds := clouds[id := SceneCloud(pose, true, [], NeutralGains)];
    }

    /** `setCloudPose`. */
    method SetCloudPose(id: int, pose: Transform)
      modifies this
      ensures clouds == if id in old(clouds) then old(clouds)[id := old(clouds)[id].(pose := pose)] else old(clouds)
      ensures markers == old(markers)
      ensures background == old(background)
    {
      if id in clouds {
        clouds := clouds[id := clouds[id].(pose := pose)];
      }
    }

    /** `setCloudVisible`. */
    method SetCloudVisible(id: int, visible: bool)
      modifies this
      ensures clouds == if id in old(clouds) then old(clouds)[id := old(clouds)[id].(visible := visible)] else old(clouds)
      ensures markers == old(markers)
      ensures background == old(background)
    {
      if id in clouds {
        clouds := clouds[id := clouds[id].(visible := visible)];
      }
    }

    /** `updateGains`. */
    method UpdateGains(id: int, gains: Gains)
      modifies this
      ensures clouds == if id in old(clouds) then old(clouds)[id := old(clouds)[id].(gains := gains)] else old(clouds)
      ensures markers == old(markers)
      ensures background == old(background)
    {
      if id in clouds {
        clouds := clouds[id := clouds[id].(gains := gains)];
      }
    }

    /** `updateCloudPolygons`. */
    method UpdateCloudPolygons(id: int, polygons: seq<Polygon>)
      modifies this
      ensures clouds == if id in old(clouds) then old(clouds)[id := old(clouds)[id].(polygons := polygons)] else old(clouds)
      ensures markers == old(markers)
      ensures background == old(background)
    {
      if id in clouds {
        clouds := clouds[id := clouds[id].(polygons := polygons)];
      }
    }

    /** `addMarker` and `setMarkerPose`: the marker `id` is shown at `pose`. */
    method SetMarker(id: int, pose: Transform)
      modifies this
      ensures markers == old(markers)[id := pose]
      ensures clouds == old(clouds)
      ensures background == old(background)
    {
      markers := markers[id := pose];
    }

    /** `removeMarker`. */
    method RemoveMarker(id: int)
      modifies this
      ensures markers == old(markers) - {id}
      ensures clouds == old(clouds)
      ensures background == old(background)
    {
      markers := markers - {id};
    }

    /** `setBackgroundColor`. */
    method SetBackground(c: BackgroundColor)
      modifies this
      ensures background == c
      ensures clouds == old(clouds) && markers == old(markers)
    {
      background := c;
    }
  }
}
