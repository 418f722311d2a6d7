/** The two tables of src/huffmantable_q3.h, and the proof that they agree. */
module Q3Tables {
  import opened Wire
  import opened Bits
  import opened Huffman

  /** `2^(11 - len)` neighbouring equal entries of the decode table, the first at index `start`. */
  datatype Run = Run(value: int, len: int, start: int)

  /** huffenctable_q3, entries 8h to 8h + 7. */
  function EncRowLow(h: nat, i: nat): EncEntry {
    match h
    case 0 => (match i
      case 0 => EncEntry(2, 0x4000) case 1 => EncEntry(5, 0xd800) case 2 => EncEntry(7, 0x1200)
      case 3 => EncEntry(7, 0x3600)
      case 4 => EncEntry(8, 0x8500) case 5 => EncEntry(8, 0x8800) case 6 => EncEntry(7, 0x0800)
      case _ => EncEntry(6, 0xfc00))
    case 1 => (match i
      case 0 => EncEntry(5, 0xa800) case 1 => EncEntry(7, 0x2c00) case 2 => EncEntry(7, 0x9600)
      case 3 => EncEntry(7, 0xd000)
      case 4 => EncEntry(7, 0xc800) case 5 => EncEntry(6, 0xb400) case 6 => EncEntry(8, 0x9c00)
      case _ => EncEntry(9, 0x3500))
    case 2 => (match i
      case 0 => EncEntry(7, 0xa400) case 1 => EncEntry(9, 0x1a00) case 2 => EncEntry(9, 0x0f80)
      case 3 => EncEntry(9, 0x1f80)
      case 4 => EncEntry(10, 0xbb80) case 5 => EncEntry(10, 0xcfc0) case 6 => EncEntry(10, 0xd440)
      case _ => EncEntry(10, 0xc4c0))
    case 3 => (match i
      case 0 => EncEntry(9, 0x2f00) case 1 => EncEntry(10, 0xb180) case 2 => EncEntry(10, 0xd500)
      case 3 => EncEntry(10, 0xc6c0)
      case 4 => EncEntry(10, 0xd780) case 5 => EncEntry(8, 0xc200) case 6 => EncEntry(9, 0xf200)
      case _ => EncEntry(8, 0x2b00))
    case 4 => (match i
      case 0 => EncEntry(6, 0xec00) case 1 => EncEntry(10, 0xcb00) case 2 => EncEntry(9, 0x2200)
      case 3 => EncEntry(10, 0xb340)
      case 4 => EncEntry(10, 0xa3c0) case 5 => EncEntry(10, 0x9fc0) case 6 => EncEntry(10, 0xb0c0)
      case _ => EncEntry(10, 0xb3c0))
    case 5 => (match i
      case 0 => EncEntry(9, 0x2900) case 1 => EncEntry(10, 0x3580) case 2 => EncEntry(10, 0xcc00)
      case 3 => EncEntry(10, 0x2800)
      case 4 => EncEntry(10, 0x8e40) case 5 => EncEntry(10, 0x0f40) case 6 => EncEntry(9, 0x2f80)
      case _ => EncEntry(8, 0x1e00))
    case 6 => (match i
      case 0 => EncEntry(7, 0xe400) case 1 => EncEntry(8, 0xc300) case 2 => EncEntry(8, 0xf700)
      case 3 => EncEntry(9, 0xe980)
      case 4 => EncEntry(8, 0xca00) case 5 => EncEntry(8, 0x8d00) case 6 => EncEntry(9, 0xb000)
      case _ => EncEntry(9, 0x8680))
    case 7 => (match i
      case 0 => EncEntry(9, 0xe000) case 1 => EncEntry(9, 0x8f00) case 2 => EncEntry(9, 0x9980)
      case 3 => EncEntry(10, 0x8980)
      case 4 => EncEntry(10, 0xc480) case 5 => EncEntry(9, 0x3d00) case 6 => EncEntry(9, 0x2280)
      case _ => EncEntry(10, 0xcf80))
    case 8 => (match i
      case 0 => EncEntry(8, 0xf300) case 1 => EncEntry(7, 0x0a00) case 2 => EncEntry(7, 0x3e00)
      case 3 => EncEntry(7, 0x2000)
      case 4 => EncEntry(8, 0x8400) case 5 => EncEntry(8, 0x8a00) case 6 => EncEntry(9, 0x0100)
      case _ => EncEntry(9, 0x0e00))
    case 9 => (match i
      case 0 => EncEntry(9, 0xbc80) case 1 => EncEntry(10, 0xc600) case 2 => EncEntry(10, 0xeb40)
      case 3 => EncEntry(10, 0x8ec0)
      case 4 => EncEntry(9, 0xb980) case 5 => EncEntry(10, 0xd540) case 6 => EncEntry(10, 0xe380)
      case _ => EncEntry(10, 0xccc0))
    case 10 => (match i
      case 0 => EncEntry(9, 0x3480) case 1 => EncEntry(10, 0xb900) case 2 => EncEntry(10, 0xd680)
      case 3 => EncEntry(10, 0xd6c0)
      case 4 => EncEntry(10, 0xcb80) case 5 => EncEntry(10, 0x8e80) case 6 => EncEntry(10, 0xc780)
      case _ => EncEntry(10, 0xcc40))
    case 11 => (match i
      case 0 => EncEntry(10, 0xeb00) case 1 => EncEntry(10, 0xd340) case 2 => EncEntry(9, 0x0e80)
      case 3 => EncEntry(9, 0x1500)
      case 4 => EncEntry(9, 0xe300) case 5 => EncEntry(9, 0xa080) case 6 => EncEntry(9, 0xd700)
      case _ => EncEntry(8, 0x1b00))
    case 12 => (match i
      case 0 => EncEntry(9, 0xcf00) case 1 => EncEntry(8, 0x3c00) case 2 => EncEntry(9, 0xd580)
      case 3 => EncEntry(9, 0xf180)
      case 4 => EncEntry(9, 0xe900) case 5 => EncEntry(7, 0x0c00) case 6 => EncEntry(8, 0x8200)
      case _ => EncEntry(9, 0xf280))
    case 13 => (match i
      case 0 => EncEntry(6, 0x3800) case 1 => EncEntry(8, 0x1400) case 2 => EncEntry(9, 0xbd00)
      case 3 => EncEntry(9, 0x2300)
      case 4 => EncEntry(8, 0x1900) case 5 => EncEntry(9, 0xf100) case 6 => EncEntry(8, 0x3000)
      case _ => EncEntry(8, 0xcd00))
    case 14 => (match i
      case 0 => EncEntry(8, 0xa100) case 1 => EncEntry(8, 0x3100) case 2 => EncEntry(8, 0xe200)
      case 3 => EncEntry(8, 0x9e00)
      case 4 => EncEntry(7, 0x9a00) case 5 => EncEntry(7, 0x0200) case 6 => EncEntry(8, 0xe800)
      case _ => EncEntry(8, 0x9800))
    case _ => (match i
      case 0 => EncEntry(8, 0xd200) case 1 => EncEntry(8, 0x8700) case 2 => EncEntry(8, 0xc500)
      case 3 => EncEntry(8, 0xce00)
      case 4 => EncEntry(8, 0xf600) case 5 => EncEntry(7, 0x1600) case 6 => EncEntry(7, 0x1000)
      case _ => EncEntry(7, 0xa600))
  }

  function EncRowHigh(h: nat, i: nat): EncEntry {
    match h
    case 16 => (match i
      case 0 => EncEntry(6, 0xf800) case 1 => EncEntry(7, 0x9400) case 2 => EncEntry(7, 0x3200)
      case 3 => EncEntry(7, 0xbe00)
      case 4 => EncEntry(8, 0xf000) case 5 => EncEntry(8, 0xc100) case 6 => EncEntry(8, 0x8000)
      case _ => EncEntry(8, 0xe100))
    case 17 => (match i
      case 0 => EncEntry(8, 0xe600) case 1 => EncEntry(8, 0xe700) case 2 => EncEntry(8, 0xea00)
      case 3 => EncEntry(8, 0x2e00)
      case 4 => EncEntry(9, 0xd380) case 5 => EncEntry(9, 0x2380) case 6 => EncEntry(9, 0x8100)
      case _ => EncEntry(9, 0xb200))
    case 18 => (match i
      case 0 => EncEntry(9, 0x8c80) case 1 => EncEntry(10, 0xc680) case 2 => EncEntry(9, 0x0180)
      case 3 => EncEntry(10, 0xebc0)
      case 4 => EncEntry(10, 0xd400) case 5 => EncEntry(10, 0xa280) case 6 => EncEntry(10, 0xd600)
      case _ => EncEntry(10, 0xbc00))
    case 19 => (match i
      case 0 => EncEntry(10, 0xd4c0) case 1 => EncEntry(10, 0x9f00) case 2 => EncEntry(10, 0xc700)
      case 3 => EncEntry(10, 0xa240)
      case 4 => EncEntry(10, 0xd480) case 5 => EncEntry(10, 0x8c00) case 6 => EncEntry(10, 0xd7c0)
      case _ => EncEntry(10, 0x9d80))
    case 20 => (match i
      case 0 => EncEntry(9, 0x2880) case 1 => EncEntry(10, 0x9f80) case 2 => EncEntry(10, 0xcc80)
      case 3 => EncEntry(10, 0x3400)
      case 4 => EncEntry(10, 0xbb40) case 5 => EncEntry(10, 0x8380) case 6 => EncEntry(10, 0xb8c0)
      case _ => EncEntry(10, 0x8b80))
    case 21 => (match i
      case 0 => EncEntry(9, 0x1c80) case 1 => EncEntry(10, 0x8600) case 2 => EncEntry(10, 0xc740)
      case 3 => EncEntry(10, 0xa2c0)
      case 4 => EncEntry(10, 0xd640) case 5 => EncEntry(10, 0xb300) case 6 => EncEntry(10, 0xd300)
      case _ => EncEntry(10, 0xb280))
    case 22 => (match i
      case 0 => EncEntry(9, 0x1c00) case 1 => EncEntry(10, 0x83c0) case 2 => EncEntry(10, 0xbc40)
      case 3 => EncEntry(10, 0x3dc0)
      case 4 => EncEntry(10, 0xa300) case 5 => EncEntry(10, 0x35c0) case 6 => EncEntry(10, 0xc7c0)
      case _ => EncEntry(10, 0x9940))
    case 23 => (match i
      case 0 => EncEntry(10, 0xcbc0) case 1 => EncEntry(10, 0x2840) case 2 => EncEntry(10, 0xc040)
      case 3 => EncEntry(10, 0x3d80)
      case 4 => EncEntry(10, 0xb940) case 5 => EncEntry(10, 0x81c0) case 6 => EncEntry(10, 0xc640)
      case _ => EncEntry(10, 0xb100))
    case 24 => (match i
      case 0 => EncEntry(8, 0x2a00) case 1 => EncEntry(9, 0xc080) case 2 => EncEntry(8, 0xba00)
      case 3 => EncEntry(6, 0x0400)
      case 4 => EncEntry(7, 0x9000) case 5 => EncEntry(10, 0xe3c0) case 6 => EncEntry(10, 0xe0c0)
      case _ => EncEntry(8, 0x1d00))
    case 25 => (match i
      case 0 => EncEntry(9, 0x8f80) case 1 => EncEntry(10, 0x3440) case 2 => EncEntry(10, 0xa200)
      case 3 => EncEntry(10, 0xc000)
      case 4 => EncEntry(10, 0xb880) case 5 => EncEntry(10, 0xa380) case 6 => EncEntry(10, 0xb2c0)
      case _ => EncEntry(10, 0xb800))
    case 26 => (match i
      case 0 => EncEntry(9, 0x0000) case 1 => EncEntry(10, 0x9dc0) case 2 => EncEntry(10, 0xbb00)
      case 3 => EncEntry(10, 0x8180)
      case 4 => EncEntry(10, 0xb080) case 5 => EncEntry(10, 0x9d00) case 6 => EncEntry(10, 0xb380)
      case _ => EncEntry(10, 0x29c0))
    case 27 => (match i
      case 0 => EncEntry(10, 0xbd80) case 1 => EncEntry(10, 0x2980) case 2 => EncEntry(10, 0xb1c0)
      case 3 => EncEntry(10, 0x1a80)
      case 4 => EncEntry(10, 0xbdc0) case 5 => EncEntry(10, 0x8300) case 6 => EncEntry(10, 0xbbc0)
      case _ => EncEntry(10, 0x1f00))
    case 28 => (match i
      case 0 => EncEntry(9, 0x8b00) case 1 => EncEntry(9, 0x8900) case 2 => EncEntry(10, 0x9900)
      case 3 => EncEntry(10, 0x1f40)
      case 4 => EncEntry(10, 0xc400) case 5 => EncEntry(10, 0x8e00) case 6 => EncEntry(10, 0xcb40)
      case _ => EncEntry(10, 0x89c0))
    case 29 => (match i
      case 0 => EncEntry(7, 0x9200) case 1 => EncEntry(10, 0x8c40) case 2 => EncEntry(10, 0xe080)
      case 3 => EncEntry(10, 0x8640)
      case 4 => EncEntry(10, 0xc440) case 5 => EncEntry(8, 0x1800) case 6 => EncEntry(10, 0xa040)
      case _ => EncEntry(10, 0x8340))
    case 30 => (match i
      case 0 => EncEntry(10, 0xeb80) case 1 => EncEntry(10, 0x0f00) case 2 => EncEntry(10, 0xa340)
      case 3 => EncEntry(10, 0x00c0)
      case 4 => EncEntry(10, 0x8bc0) case 5 => EncEntry(10, 0x15c0) case 6 => EncEntry(10, 0xb840)
      case _ => EncEntry(11, 0x00a0))
    case _ => (match i
      case 0 => EncEntry(10, 0xa000) case 1 => EncEntry(10, 0x1ac0) case 2 => EncEntry(10, 0x9f40)
      case 3 => EncEntry(10, 0x1580)
      case 4 => EncEntry(10, 0x9d40) case 5 => EncEntry(10, 0xb140) case 6 => EncEntry(7, 0xf400)
      case _ => EncEntry(6, 0x2400))
  }

  function EncRow(h: nat, i: nat): EncEntry {
    if h < 16 then EncRowLow(h, i) else EncRowHigh(h, i)
  }

  /** huffdectable_q3 as its 257 runs of equal entries: runs 8h to 8h + 7. */
  function RunRow(h: nat, i: nat): Run {
    match h
    case 0 => (match i
      case 0 => Run(208, 9, 0) case 1 => Run(256, 11, 4) case 2 => Run(247, 11, 5) case 3 => Run(243, 10, 6)
      case 4 => Run(70, 9, 8) case 5 => Run(146, 9, 12) case 6 => Run(117, 7, 16) case _ => Run(195, 6, 32))
    case 1 => (match i
      case 0 => Run(6, 7, 64) case 1 => Run(65, 7, 80) case 2 => Run(101, 7, 96) case 3 => Run(71, 9, 112)
      case 4 => Run(90, 9, 116) case 5 => Run(241, 10, 120) case 6 => Run(45, 10, 122) case _ => Run(18, 9, 124))
    case 2 => (match i
      case 0 => Run(126, 7, 128) case 1 => Run(2, 7, 144) case 2 => Run(105, 8, 160) case 3 => Run(91, 9, 168)
      case 4 => Run(251, 10, 172) case 5 => Run(245, 10, 174) case 6 => Run(125, 7, 176) case _ => Run(237, 8, 192))
    case 3 => (match i
      case 0 => Run(108, 8, 200) case 1 => Run(17, 9, 208) case 2 => Run(219, 10, 212) case 3 => Run(249, 10, 214)
      case 4 => Run(95, 8, 216) case 5 => Run(176, 9, 224) case 6 => Run(168, 9, 228) case _ => Run(199, 8, 232))
    case 4 => (match i
      case 0 => Run(47, 8, 240) case 1 => Run(223, 10, 248) case 2 => Run(227, 10, 250) case 3 => Run(19, 9, 252)
      case 4 => Run(67, 7, 256) case 5 => Run(34, 9, 272) case 6 => Run(62, 9, 276) case _ => Run(107, 9, 280))
    case 5 => (match i
      case 0 => Run(141, 9, 284) case 1 => Run(255, 6, 288) case 2 => Run(43, 10, 320) case 3 => Run(185, 10, 322)
      case 4 => Run(160, 9, 324) case 5 => Run(40, 9, 328) case 6 => Run(217, 10, 332) case _ => Run(215, 10, 334))
    case 6 => (match i
      case 0 => Run(192, 8, 336) case 1 => Run(31, 8, 344) case 2 => Run(9, 7, 352) case 3 => Run(139, 8, 368)
      case 4 => Run(24, 9, 376) case 5 => Run(46, 9, 380) case 6 => Run(110, 8, 384) case _ => Run(113, 8, 392))
    case 7 => (match i
      case 0 => Run(130, 7, 400) case 1 => Run(163, 10, 416) case 2 => Run(201, 10, 418) case 3 => Run(80, 9, 420)
      case 4 => Run(15, 9, 424) case 5 => Run(41, 10, 428) case 6 => Run(181, 10, 430) case _ => Run(3, 7, 432))
    case 8 => (match i
      case 0 => Run(104, 6, 448) case 1 => Run(97, 8, 480) case 2 => Run(61, 9, 488) case 3 => Run(187, 10, 492)
      case 4 => Run(179, 10, 494) case 5 => Run(66, 7, 496) case 6 => Run(0, 2, 512) case _ => Run(134, 8, 1024))
    case 9 => (match i
      case 0 => Run(142, 9, 1032) case 1 => Run(211, 10, 1036) case 2 => Run(189, 10, 1038) case 3 => Run(102, 8, 1040)
      case 4 => Run(221, 10, 1048) case 5 => Run(239, 10, 1050) case 6 => Run(165, 10, 1052)
      case _ => Run(177, 10, 1054))
    case 10 => (match i
      case 0 => Run(68, 8, 1056) case 1 => Run(4, 8, 1064) case 2 => Run(169, 10, 1072) case 3 => Run(235, 10, 1074)
      case 4 => Run(55, 9, 1076) case 5 => Run(121, 8, 1080) case 6 => Run(5, 8, 1088) case _ => Run(225, 9, 1096))
    case 11 => (match i
      case 0 => Run(59, 10, 1100) case 1 => Run(231, 10, 1102) case 2 => Run(69, 8, 1104) case 3 => Run(224, 9, 1112)
      case 4 => Run(167, 10, 1116) case 5 => Run(244, 10, 1118) case 6 => Run(157, 10, 1120)
      case _ => Run(233, 10, 1122))
    case 12 => (match i
      case 0 => Run(144, 9, 1124) case 1 => Run(53, 8, 1128) case 2 => Run(229, 10, 1136) case 3 => Run(44, 10, 1138)
      case 4 => Run(85, 10, 1140) case 5 => Run(75, 10, 1142) case 6 => Run(57, 9, 1144) case _ => Run(200, 9, 1148))
    case 13 => (match i
      case 0 => Run(196, 7, 1152) case 1 => Run(232, 7, 1168) case 2 => Run(129, 7, 1184) case 3 => Run(10, 7, 1200)
      case 4 => Run(119, 8, 1216) case 5 => Run(226, 10, 1224) case 6 => Run(183, 10, 1226) case _ => Run(58, 9, 1228))
    case 14 => (match i
      case 0 => Run(116, 7, 1232) case 1 => Run(14, 8, 1248) case 2 => Run(213, 10, 1256) case 3 => Run(252, 10, 1258)
      case 4 => Run(159, 10, 1260) case 5 => Run(209, 10, 1262) case 6 => Run(115, 8, 1264)
      case _ => Run(153, 10, 1272))
    case 15 => (match i
      case 0 => Run(250, 10, 1274) case 1 => Run(161, 10, 1276) case 2 => Run(37, 10, 1278) case 3 => Run(248, 10, 1280)
      case 4 => Run(238, 10, 1282) case 5 => Run(93, 9, 1284) case 6 => Run(112, 8, 1288) case _ => Run(202, 10, 1296))
    case 16 => (match i
      case 0 => Run(155, 10, 1298) case 1 => Run(149, 10, 1300) case 2 => Run(171, 10, 1302)
      case 3 => Run(180, 10, 1304)
      case 4 => Run(242, 10, 1306) case 5 => Run(205, 10, 1308) case 6 => Run(36, 10, 1310) case _ => Run(16, 7, 1312))
    case 17 => (match i
      case 0 => Run(127, 7, 1328) case 1 => Run(8, 5, 1344) case 2 => Run(54, 9, 1408) case 3 => Run(212, 10, 1412)
      case 4 => Run(38, 10, 1414) case 5 => Run(191, 10, 1416) case 6 => Run(253, 10, 1418) case _ => Run(25, 10, 1420))
    case 18 => (match i
      case 0 => Run(218, 10, 1422) case 1 => Run(143, 9, 1424) case 2 => Run(175, 10, 1428) case 3 => Run(206, 10, 1430)
      case 4 => Run(173, 10, 1432) case 5 => Run(35, 10, 1434) case 6 => Run(214, 10, 1436) case _ => Run(39, 10, 1438))
    case 19 => (match i
      case 0 => Run(13, 6, 1440) case 1 => Run(207, 10, 1472) case 2 => Run(246, 10, 1474) case 3 => Run(204, 10, 1476)
      case 4 => Run(166, 10, 1478) case 5 => Run(81, 10, 1480) case 6 => Run(188, 10, 1482) case _ => Run(76, 9, 1484))
    case 20 => (match i
      case 0 => Run(194, 8, 1488) case 1 => Run(210, 10, 1496) case 2 => Run(164, 10, 1498) case 3 => Run(20, 10, 1500)
      case 4 => Run(222, 10, 1502) case 5 => Run(151, 10, 1504) case 6 => Run(178, 10, 1506) case _ => Run(72, 9, 1508))
    case 21 => (match i
      case 0 => Run(106, 9, 1512) case 1 => Run(216, 10, 1516) case 2 => Run(220, 10, 1518) case 3 => Run(131, 7, 1520)
      case 4 => Run(203, 10, 1536) case 5 => Run(186, 10, 1538) case 6 => Run(193, 9, 1540) case _ => Run(133, 8, 1544))
    case 22 => (match i
      case 0 => Run(29, 8, 1552) case 1 => Run(49, 8, 1560) case 2 => Run(228, 10, 1568) case 3 => Run(236, 10, 1570)
      case 4 => Run(60, 10, 1572) case 5 => Run(23, 10, 1574) case 6 => Run(122, 8, 1576) case _ => Run(73, 10, 1584))
    case 23 => (match i
      case 0 => Run(190, 10, 1586) case 1 => Run(145, 10, 1588) case 2 => Run(27, 10, 1590) case 3 => Run(154, 10, 1592)
      case 4 => Run(170, 10, 1594) case 5 => Run(86, 10, 1596) case 6 => Run(182, 10, 1598) case _ => Run(12, 7, 1600))
    case 24 => (match i
      case 0 => Run(52, 8, 1616) case 1 => Run(33, 10, 1624) case 2 => Run(230, 10, 1626) case 3 => Run(84, 10, 1628)
      case 4 => Run(184, 10, 1630) case 5 => Run(42, 10, 1632) case 6 => Run(87, 10, 1634) case _ => Run(162, 10, 1636))
    case 25 => (match i
      case 0 => Run(79, 10, 1638) case 1 => Run(111, 8, 1640) case 2 => Run(123, 8, 1648) case 3 => Run(96, 9, 1656)
      case 4 => Run(63, 10, 1660) case 5 => Run(21, 10, 1662) case 6 => Run(11, 7, 1664) case _ => Run(120, 8, 1680))
    case 26 => (match i
      case 0 => Run(174, 10, 1688) case 1 => Run(89, 10, 1690) case 2 => Run(140, 9, 1692) case 3 => Run(148, 10, 1696)
      case 4 => Run(22, 10, 1698) case 5 => Run(156, 10, 1700) case 6 => Run(152, 10, 1702) case _ => Run(26, 10, 1704))
    case 27 => (match i
      case 0 => Run(77, 10, 1706) case 1 => Run(98, 9, 1708) case 2 => Run(150, 10, 1712) case 3 => Run(172, 10, 1714)
      case 4 => Run(82, 10, 1716) case 5 => Run(83, 10, 1718) case 6 => Run(94, 9, 1720) case _ => Run(28, 10, 1724))
    case 28 => (match i
      case 0 => Run(158, 10, 1726) case 1 => Run(1, 5, 1728) case 2 => Run(56, 9, 1792) case 3 => Run(234, 10, 1796)
      case 4 => Run(198, 10, 1798) case 5 => Run(135, 8, 1800) case 6 => Run(114, 8, 1808) case _ => Run(92, 9, 1816))
    case 29 => (match i
      case 0 => Run(78, 10, 1820) case 1 => Run(197, 10, 1822) case 2 => Run(48, 7, 1824) case 3 => Run(136, 8, 1840)
      case 4 => Run(137, 8, 1848) case 5 => Run(118, 8, 1856) case 6 => Run(100, 9, 1864) case _ => Run(51, 9, 1868))
    case 30 => (match i
      case 0 => Run(138, 8, 1872) case 1 => Run(88, 10, 1880) case 2 => Run(74, 10, 1882) case 3 => Run(240, 10, 1884)
      case 4 => Run(147, 10, 1886) case 5 => Run(32, 6, 1888) case 6 => Run(132, 8, 1920) case _ => Run(109, 9, 1928))
    case 31 => (match i
      case 0 => Run(99, 9, 1932) case 1 => Run(30, 9, 1936) case 2 => Run(103, 9, 1940) case 3 => Run(64, 8, 1944)
      case 4 => Run(254, 7, 1952) case 5 => Run(124, 8, 1968) case 6 => Run(50, 8, 1976) case _ => Run(128, 6, 1984))
    case _ => (match i
      case _ => Run(7, 6, 2016))
  }

  /** The run that holds each symbol: symbols 8h to 8h + 7. */
  function PlaceRow(h: nat, i: nat): int {
    match h
    case 0 => (match i
      case 0 => 70 case 1 => 225 case 2 => 17 case 3 => 63
      case 4 => 81 case 5 => 86 case 6 => 8 case _ => 256)
    case 1 => (match i
      case 0 => 137 case 1 => 50 case 2 => 107 case 3 => 206
      case 4 => 191 case 5 => 152 case 6 => 113 case _ => 60)
    case 2 => (match i
      case 0 => 135 case 1 => 25 case 2 => 15 case 3 => 35
      case 4 => 163 case 5 => 205 case 6 => 212 case _ => 181)
    case 3 => (match i
      case 0 => 52 case 1 => 143 case 2 => 215 case 3 => 186
      case 4 => 223 case 5 => 176 case 6 => 249 case _ => 49)
    case 4 => (match i
      case 0 => 245 case 1 => 193 case 2 => 37 case 3 => 149
      case 4 => 134 case 5 => 122 case 6 => 140 case _ => 151)
    case 5 => (match i
      case 0 => 45 case 1 => 61 case 2 => 197 case 3 => 42
      case 4 => 99 case 5 => 14 case 6 => 53 case _ => 32)
    case 6 => (match i
      case 0 => 234 case 1 => 177 case 2 => 254 case 3 => 239
      case 4 => 192 case 5 => 97 case 6 => 138 case _ => 84)
    case 7 => (match i
      case 0 => 226 case 1 => 102 case 2 => 111 case 3 => 88
      case 4 => 180 case 5 => 66 case 6 => 38 case _ => 204)
    case 8 => (match i
      case 0 => 251 case 1 => 9 case 2 => 69 case 3 => 36
      case 4 => 80 case 5 => 90 case 6 => 4 case _ => 11)
    case 9 => (match i
      case 0 => 167 case 1 => 183 case 2 => 242 case 3 => 101
      case 4 => 159 case 5 => 216 case 6 => 232 case _ => 200)
    case 10 => (match i
      case 0 => 59 case 1 => 157 case 2 => 220 case 3 => 221
      case 4 => 195 case 5 => 100 case 6 => 189 case _ => 198)
    case 11 => (match i
      case 0 => 241 case 1 => 209 case 2 => 12 case 3 => 19
      case 4 => 231 case 5 => 125 case 6 => 222 case _ => 28)
    case 12 => (match i
      case 0 => 203 case 1 => 65 case 2 => 217 case 3 => 248
      case 4 => 238 case 5 => 10 case 6 => 75 case _ => 250)
    case 13 => (match i
      case 0 => 64 case 1 => 18 case 2 => 168 case 3 => 39
      case 4 => 24 case 5 => 247 case 6 => 54 case _ => 201)
    case 14 => (match i
      case 0 => 126 case 1 => 55 case 2 => 230 case 3 => 118
      case 4 => 112 case 5 => 6 case 6 => 237 case _ => 108)
    case 15 => (match i
      case 0 => 207 case 1 => 85 case 2 => 182 case 3 => 202
      case 4 => 253 case 5 => 22 case 6 => 16 case _ => 136)
    case 16 => (match i
      case 0 => 255 case 1 => 106 case 2 => 56 case 3 => 171
      case 4 => 246 case 5 => 175 case 6 => 71 case _ => 229)
    case 17 => (match i
      case 0 => 235 case 1 => 236 case 2 => 240 case 3 => 51
      case 4 => 210 case 5 => 40 case 6 => 72 case _ => 145)
    case 18 => (match i
      case 0 => 96 case 1 => 185 case 2 => 5 case 3 => 244
      case 4 => 211 case 5 => 129 case 6 => 218 case _ => 165)
    case 19 => (match i
      case 0 => 214 case 1 => 119 case 2 => 187 case 3 => 128
      case 4 => 213 case 5 => 94 case 6 => 224 case _ => 116)
    case 20 => (match i
      case 0 => 44 case 1 => 121 case 2 => 199 case 3 => 57
      case 4 => 162 case 5 => 78 case 6 => 156 case _ => 92)
    case 21 => (match i
      case 0 => 30 case 1 => 82 case 2 => 188 case 3 => 130
      case 4 => 219 case 5 => 148 case 6 => 208 case _ => 146)
    case 22 => (match i
      case 0 => 29 case 1 => 79 case 2 => 166 case 3 => 68
      case 4 => 131 case 5 => 62 case 6 => 190 case _ => 110)
    case 23 => (match i
      case 0 => 196 case 1 => 43 case 2 => 173 case 3 => 67
      case 4 => 158 case 5 => 74 case 6 => 184 case _ => 141)
    case 24 => (match i
      case 0 => 48 case 1 => 174 case 2 => 160 case 3 => 7
      case 4 => 104 case 5 => 233 case 6 => 228 case _ => 31)
    case 25 => (match i
      case 0 => 103 case 1 => 58 case 2 => 127 case 3 => 172
      case 4 => 155 case 5 => 133 case 6 => 147 case _ => 153)
    case 26 => (match i
      case 0 => 0 case 1 => 117 case 2 => 161 case 3 => 73
      case 4 => 139 case 5 => 114 case 6 => 150 case _ => 47)
    case 27 => (match i
      case 0 => 169 case 1 => 46 case 2 => 144 case 3 => 26
      case 4 => 170 case 5 => 76 case 6 => 164 case _ => 33)
    case 28 => (match i
      case 0 => 91 case 1 => 87 case 2 => 109 case 3 => 34
      case 4 => 178 case 5 => 98 case 6 => 194 case _ => 89)
    case 29 => (match i
      case 0 => 105 case 1 => 95 case 2 => 227 case 3 => 83
      case 4 => 179 case 5 => 23 case 6 => 124 case _ => 77)
    case 30 => (match i
      case 0 => 243 case 1 => 13 case 2 => 132 case 3 => 3
      case 4 => 93 case 5 => 21 case 6 => 154 case _ => 2)
    case _ => (match i
      case 0 => 123 case 1 => 27 case 2 => 120 case 3 => 20
      case 4 => 115 case 5 => 142 case 6 => 252 case _ => 41)
  }

  function Enc(s: byte): EncEntry {
    EncRow(s / 8, s % 8)
  }

  function RunAt(k: nat): Run
    requires k < 257
  {
    RunRow(k / 8, k % 8)
  }

  function Place(s: byte): int {
    PlaceRow(s / 8, s % 8)
  }

  function Size(len: nat): nat
    requires 1 <= len <= WINDOW
  {
    match len
    case 1 => 1024 case 2 => 512 case 3 => 256 case 4 => 128 case 5 => 64 case 6 => 32
    case 7 => 16 case 8 => 8 case 9 => 4 case 10 => 2 case _ => 1
  }

  /** Symbol `s` has its own run, and its code is the index of that run's first entry. */
  predicate Placed(s: byte) {
    var e := Enc(s);
    && 0 <= Place(s) < 257
    && var r := RunAt(Place(s));
    r.value == s && r.len == e.len && 32 * r.start == e.code
  }

  /** A run begins at a multiple of its length, and the next one where it ends. */
  predicate Adjacent(k: nat)
    requires k < 257
  {
    && 1 <= RunAt(k).len <= WINDOW
    && RunAt(k).start % Size(RunAt(k).len) == 0
    && RunAt(k).start + Size(RunAt(k).len) == if k == 256 then 2048 else RunAt(k + 1).start
  }

  predicate PlacedFrom(s: nat)
    requires s + 4 <= 256
  {
    Placed(s) && Placed(s + 1) && Placed(s + 2) && Placed(s + 3)
  }

  predicate AdjacentFrom(k: nat)
    requires k + 4 <= 257
  {
    Adjacent(k) && Adjacent(k + 1) && Adjacent(k + 2) && Adjacent(k + 3)
  }

  lemma Symbols0() ensures PlacedFrom(0) {}
  lemma Symbols4() ensures PlacedFrom(4) {}
  lemma Symbols8() ensures PlacedFrom(8) {}
  lemma Symbols12() ensures PlacedFrom(12) {}
  lemma Symbols16() ensures PlacedFrom(16) {}
  lemma Symbols20() ensures PlacedFrom(20) {}
  lemma Symbols24() ensures PlacedFrom(24) {}
  lemma Symbols28() ensures PlacedFrom(28) {}
  lemma Symbols32() ensures PlacedFrom(32) {}
  lemma Symbols36() ensures PlacedFrom(36) {}
  lemma Symbols40() ensures PlacedFrom(40) {}
  lemma Symbols44() ensures PlacedFrom(44) {}
  lemma Symbols48() ensures PlacedFrom(48) {}
  lemma Symbols52() ensures PlacedFrom(52) {}
  lemma Symbols56() ensures PlacedFrom(56) {}
  lemma Symbols60() ensures PlacedFrom(60) {}
  lemma Symbols64() ensures PlacedFrom(64) {}
  lemma Symbols68() ensures PlacedFrom(68) {}
  lemma Symbols72() ensures PlacedFrom(72) {}
  lemma Symbols76() ensures PlacedFrom(76) {}
  lemma Symbols80() ensures PlacedFrom(80) {}
  lemma Symbols84() ensures PlacedFrom(84) {}
  lemma Symbols88() ensures PlacedFrom(88) {}
  lemma Symbols92() ensures PlacedFrom(92) {}
  lemma Symbols96() ensures PlacedFrom(96) {}
  lemma Symbols100() ensures PlacedFrom(100) {}
  lemma Symbols104() ensures PlacedFrom(104) {}
  lemma Symbols108() ensures PlacedFrom(108) {}
  lemma Symbols112() ensures PlacedFrom(112) {}
  lemma Symbols116() ensures PlacedFrom(116) {}
  lemma Symbols120() ensures PlacedFrom(120) {}
  lemma Symbols124() ensures PlacedFrom(124) {}
  lemma Symbols128() ensures PlacedFrom(128) {}
  lemma Symbols132() ensures PlacedFrom(132) {}
  lemma Symbols136() ensures PlacedFrom(136) {}
  lemma Symbols140() ensures PlacedFrom(140) {}
  lemma Symbols144() ensures PlacedFrom(144) {}
  lemma Symbols148() ensures PlacedFrom(148) {}
  lemma Symbols152() ensures PlacedFrom(152) {}
  lemma Symbols156() ensures PlacedFrom(156) {}
  lemma Symbols160() ensures PlacedFrom(160) {}
  lemma Symbols164() ensures PlacedFrom(164) {}
  lemma Symbols168() ensures PlacedFrom(168) {}
  lemma Symbols172() ensures PlacedFrom(172) {}
  lemma Symbols176() ensures PlacedFrom(176) {}
  lemma Symbols180() ensures PlacedFrom(180) {}
  lemma Symbols184() ensures PlacedFrom(184) {}
  lemma Symbols188() ensures PlacedFrom(188) {}
  lemma Symbols192() ensures PlacedFrom(192) {}
  lemma Symbols196() ensures PlacedFrom(196) {}
  lemma Symbols200() ensures PlacedFrom(200) {}
  lemma Symbols204() ensures PlacedFrom(204) {}
  lemma Symbols208() ensures PlacedFrom(208) {}
  lemma Symbols212() ensures PlacedFrom(212) {}
  lemma Symbols216() ensures PlacedFrom(216) {}
  lemma Symbols220() ensures PlacedFrom(220) {}
  lemma Symbols224() ensures PlacedFrom(224) {}
  lemma Symbols228() ensures PlacedFrom(228) {}
  lemma Symbols232() ensures PlacedFrom(232) {}
  lemma Symbols236() ensures PlacedFrom(236) {}
  lemma Symbols240() ensures PlacedFrom(240) {}
  lemma Symbols244() ensures PlacedFrom(244) {}
  lemma Symbols248() ensures PlacedFrom(248) {}
  lemma Symbols252() ensures PlacedFrom(252) {}

  lemma Runs0() ensures AdjacentFrom(0) {}
  lemma Runs4() ensures AdjacentFrom(4) {}
  lemma Runs8() ensures AdjacentFrom(8) {}
  lemma Runs12() ensures AdjacentFrom(12) {}
  lemma Runs16() ensures AdjacentFrom(16) {}
  lemma Runs20() ensures AdjacentFrom(20) {}
  lemma Runs24() ensures AdjacentFrom(24) {}
  lemma Runs28() ensures AdjacentFrom(28) {}
  lemma Runs32() ensures AdjacentFrom(32) {}
  lemma Runs36() ensures AdjacentFrom(36) {}
  lemma Runs40() ensures AdjacentFrom(40) {}
  lemma Runs44() ensures AdjacentFrom(44) {}
  lemma Runs48() ensures AdjacentFrom(48) {}
  lemma Runs52() ensures AdjacentFrom(52) {}
  lemma Runs56() ensures AdjacentFrom(56) {}
  lemma Runs60() ensures AdjacentFrom(60) {}
  lemma Runs64() ensures AdjacentFrom(64) {}
  lemma Runs68() ensures AdjacentFrom(68) {}
  lemma Runs72() ensures AdjacentFrom(72) {}
  lemma Runs76() ensures AdjacentFrom(76) {}
  lemma Runs80() ensures AdjacentFrom(80) {}
  lemma Runs84() ensures AdjacentFrom(84) {}
  lemma Runs88() ensures AdjacentFrom(88) {}
  lemma Runs92() ensures AdjacentFrom(92) {}
  lemma Runs96() ensures AdjacentFrom(96) {}
  lemma Runs100() ensures AdjacentFrom(100) {}
  lemma Runs104() ensures AdjacentFrom(104) {}
  lemma Runs108() ensures AdjacentFrom(108) {}
  lemma Runs112() ensures AdjacentFrom(112) {}
  lemma Runs116() ensures AdjacentFrom(116) {}
  lemma Runs120() ensures AdjacentFrom(120) {}
  lemma Runs124() ensures AdjacentFrom(124) {}
  lemma Runs128() ensures AdjacentFrom(128) {}
  lemma Runs132() ensures AdjacentFrom(132) {}
  lemma Runs136() ensures AdjacentFrom(136) {}
  lemma Runs140() ensures AdjacentFrom(140) {}
  lemma Runs144() ensures AdjacentFrom(144) {}
  lemma Runs148() ensures AdjacentFrom(148) {}
  lemma Runs152() ensures AdjacentFrom(152) {}
  lemma Runs156() ensures AdjacentFrom(156) {}
  lemma Runs160() ensures AdjacentFrom(160) {}
  lemma Runs164() ensures AdjacentFrom(164) {}
  lemma Runs168() ensures AdjacentFrom(168) {}
  lemma Runs172() ensures AdjacentFrom(172) {}
  lemma Runs176() ensures AdjacentFrom(176) {}
  lemma Runs180() ensures AdjacentFrom(180) {}
  lemma Runs184() ensures AdjacentFrom(184) {}
  lemma Runs188() ensures AdjacentFrom(188) {}
  lemma Runs192() ensures AdjacentFrom(192) {}
  lemma Runs196() ensures AdjacentFrom(196) {}
  lemma Runs200() ensures AdjacentFrom(200) {}
  lemma Runs204() ensures AdjacentFrom(204) {}
  lemma Runs208() ensures AdjacentFrom(208) {}
  lemma Runs212() ensures AdjacentFrom(212) {}
  lemma Runs216() ensures AdjacentFrom(216) {}
  lemma Runs220() ensures AdjacentFrom(220) {}
  lemma Runs224() ensures AdjacentFrom(224) {}
  lemma Runs228() ensures AdjacentFrom(228) {}
  lemma Runs232() ensures AdjacentFrom(232) {}
  lemma Runs236() ensures AdjacentFrom(236) {}
  lemma Runs240() ensures AdjacentFrom(240) {}
  lemma Runs244() ensures AdjacentFrom(244) {}
  lemma Runs248() ensures AdjacentFrom(248) {}
  lemma Runs252() ensures AdjacentFrom(252) {}

  lemma LastRun()
    ensures Adjacent(256) && RunAt(0).start == 0
  {
  }

  lemma AllPlaced(s: byte)
    ensures Placed(s)
  {
    hide Placed;
    match s / 4 {
      case 0 => Symbols0();
      case 1 => Symbols4();
      case 2 => Symbols8();
      case 3 => Symbols12();
      case 4 => Symbols16();
      case 5 => Symbols20();
      case 6 => Symbols24();
      case 7 => Symbols28();
      case 8 => Symbols32();
      case 9 => Symbols36();
      case 10 => Symbols40();
      case 11 => Symbols44();
      case 12 => Symbols48();
      case 13 => Symbols52();
      case 14 => Symbols56();
      case 15 => Symbols60();
      case 16 => Symbols64();
      case 17 => Symbols68();
      case 18 => Symbols72();
      case 19 => Symbols76();
      case 20 => Symbols80();
      case 21 => Symbols84();
      case 22 => Symbols88();
      case 23 => Symbols92();
      case 24 => Symbols96();
      case 25 => Symbols100();
      case 26 => Symbols104();
      case 27 => Symbols108();
      case 28 => Symbols112();
      case 29 => Symbols116();
      case 30 => Symbols120();
      case 31 => Symbols124();
      case 32 => Symbols128();
      case 33 => Symbols132();
      case 34 => Symbols136();
      case 35 => Symbols140();
      case 36 => Symbols144();
      case 37 => Symbols148();
      case 38 => Symbols152();
      case 39 => Symbols156();
      case 40 => Symbols160();
      case 41 => Symbols164();
      case 42 => Symbols168();
      case 43 => Symbols172();
      case 44 => Symbols176();
      case 45 => Symbols180();
      case 46 => Symbols184();
      case 47 => Symbols188();
      case 48 => Symbols192();
      case 49 => Symbols196();
      case 50 => Symbols200();
      case 51 => Symbols204();
      case 52 => Symbols208();
      case 53 => Symbols212();
      case 54 => Symbols216();
      case 55 => Symbols220();
      case 56 => Symbols224();
      case 57 => Symbols228();
      case 58 => Symbols232();
      case 59 => Symbols236();
      case 60 => Symbols240();
      case 61 => Symbols244();
      case 62 => Symbols248();
      case _ => Symbols252();
    }
  }

  lemma AllAdjacent(k: nat)
    requires k < 257
    ensures Adjacent(k)
  {
    hide Adjacent;
    match k / 4 {
      case 0 => Runs0();
      case 1 => Runs4();
      case 2 => Runs8();
      case 3 => Runs12();
      case 4 => Runs16();
      case 5 => Runs20();
      case 6 => Runs24();
      case 7 => Runs28();
      case 8 => Runs32();
      case 9 => Runs36();
      case 10 => Runs40();
      case 11 => Runs44();
      case 12 => Runs48();
      case 13 => Runs52();
      case 14 => Runs56();
      case 15 => Runs60();
      case 16 => Runs64();
      case 17 => Runs68();
      case 18 => Runs72();
      case 19 => Runs76();
      case 20 => Runs80();
      case 21 => Runs84();
      case 22 => Runs88();
      case 23 => Runs92();
      case 24 => Runs96();
      case 25 => Runs100();
      case 26 => Runs104();
      case 27 => Runs108();
      case 28 => Runs112();
      case 29 => Runs116();
      case 30 => Runs120();
      case 31 => Runs124();
      case 32 => Runs128();
      case 33 => Runs132();
      case 34 => Runs136();
      case 35 => Runs140();
      case 36 => Runs144();
      case 37 => Runs148();
      case 38 => Runs152();
      case 39 => Runs156();
      case 40 => Runs160();
      case 41 => Runs164();
      case 42 => Runs168();
      case 43 => Runs172();
      case 44 => Runs176();
      case 45 => Runs180();
      case 46 => Runs184();
      case 47 => Runs188();
      case 48 => Runs192();
      case 49 => Runs196();
      case 50 => Runs200();
      case 51 => Runs204();
      case 52 => Runs208();
      case 53 => Runs212();
      case 54 => Runs216();
      case 55 => Runs220();
      case 56 => Runs224();
      case 57 => Runs228();
      case 58 => Runs232();
      case 59 => Runs236();
      case 60 => Runs240();
      case 61 => Runs244();
      case 62 => Runs248();
      case 63 => Runs252();
      case _ => LastRun();
    }
  }

  // ---- The 2048 entries ----

  function Fill(r: Run): (e: seq<DecEntry>)
    requires 1 <= r.len <= WINDOW
    ensures |e| == Size(r.len)
  {
    seq(Size(r.len), i => DecEntry(r.value % 256, r.len))
  }

  /** The entries of the first `k` runs. */
  function Expand(k: nat): seq<DecEntry>
    requires k <= 257
  {
    if k == 0 then []
    else
      AllAdjacent(k - 1);
      Expand(k - 1) + Fill(RunAt(k - 1))
  }

  function Start(k: nat): int
    requires k <= 257
  {
    if k == 257 then 2048 else RunAt(k).start
  }

  lemma {:induction false} ExpandedLength(k: nat)
    requires k <= 257
    ensures |Expand(k)| == Start(k)
    decreases k
  {
    hide RunAt, Size;
    LastRun();
    if k > 0 {
      ExpandedLength(k - 1);
      AllAdjacent(k - 1);
    }
  }

  /** Every entry of a run reads as that run's symbol and length. */
  lemma {:induction false} RunEntries(k: nat, run: nat, index: nat)
    requires run < k <= 257 && 1 <= RunAt(run).len <= WINDOW
    requires Start(run) <= index < Start(run) + Size(RunAt(run).len)
    ensures index < |Expand(k)| && Expand(k)[index] == DecEntry(RunAt(run).value % 256, RunAt(run).len)
    decreases k
  {
    hide RunAt, Size;
    AllAdjacent(k - 1);
    ExpandedLength(k - 1);
    if run < k - 1 {
      RunEntries(k - 1, run, index);
    }
  }

  lemma {:induction false} StartBelow(k: nat)
    requires k < 257
    ensures RunAt(k).start < 2048
    decreases 257 - k
  {
    hide RunAt, Size;
    AllAdjacent(k);
    SizeIsPower(RunAt(k).len);
    if k < 256 { StartBelow(k + 1); }
  }

  // ---- Agreement ----

  function Tables(): (t: Huffman.Tables)
  {
    Huffman.Tables(seq(256, s requires 0 <= s < 256 => Enc(s)), Expand(257))
  }

  lemma {:induction false} MultipleHasNoLowBits(k: nat, n: nat, i: nat)
    requires i < n
    ensures !Bit(Pow2(n) * k, i)
    decreases n
  {
    var x := Pow2(n - 1) * k;
    assert Pow2(n) * k == 2 * x;
    if i > 0 {
      MultipleHasNoLowBits(k, n - 1, i - 1);
    }
  }

  lemma SizeIsPower(len: nat)
    requires 1 <= len <= WINDOW
    ensures Size(len) == Pow2(11 - len) && 32 * Size(len) == Pow2(16 - len)
  {
    SmallPowers();
    assert Pow2(5) == 32 && Pow2(6) == 64 && Pow2(7) == 128;
    assert Pow2(10) == 1024 && Pow2(9) == 512;
    assert Pow2(12) == 4096 && Pow2(13) == 8192 && Pow2(14) == 16384 && Pow2(15) == 32768;
    assert Pow2(0) == 1 && Pow2(1) == 2 && Pow2(2) == 4 && Pow2(3) == 8;
  }

  lemma ScaledMultiple(start: nat, size: nat, p: nat)
    requires size > 0 && start % size == 0 && p == 32 * size
    ensures 32 * start == p * (start / size)
  {
    var k := start / size;
    assert start == size * k;
    assert p * k == 32 * (size * k);
  }

  lemma CodeEnds(s: byte)
    ensures Ends(Enc(s).code, Enc(s).len)
  {
    hide Enc, RunAt, Size, Place;
    AllPlaced(s);
    AllAdjacent(Place(s));
    var e, r := Enc(s), RunAt(Place(s));
    SizeIsPower(e.len);
    var k := r.start / Size(e.len);
    ScaledMultiple(r.start, Size(e.len), Pow2(16 - e.len));
    forall j: nat | e.len <= j ensures !CodeBit(e.code, j) {
      if j < 16 { MultipleHasNoLowBits(k, 16 - e.len, 15 - j); }
    }
  }

  /** An index that starts with a code lies within `Size` entries of the code's own index. */
  lemma StartsWithIsNear(e: EncEntry, index: nat)
    requires 1 <= e.len <= WINDOW && e.code < 65536 && Ends(e.code, e.len) && index < 2048 && StartsWith(index, e)
    ensures e.code / 32 <= index < e.code / 32 + Pow2(11 - e.len)
  {
    var start, k := e.code / 32, 11 - e.len;
    SmallPowers();
    forall i: nat | i < e.len ensures Bit(Shr(index, k), i) == Bit(Shr(start, k), i) {
      BitOfShr(index, k, i);
      BitOfShr(start, k, i);
      BitOfDiv32(e.code, i + k);
      assert IndexBit(index, e.len - 1 - i) == CodeBit(e.code, e.len - 1 - i);
    }
    ShrBound(index, k, e.len);
    ShrBound(start, k, e.len);
    SameBits(Shr(index, k), Shr(start, k), e.len);
    LowAndRest(index, k);
    LowAndRest(start, k);
    LowBound(index, k);
    LowPartIsZero(e, k);
  }

  lemma LowPartIsZero(e: EncEntry, k: nat)
    requires 1 <= e.len <= WINDOW && Ends(e.code, e.len) && k == 11 - e.len
    ensures Low(e.code / 32, k) == 0
  {
    forall i: nat | i < k ensures Bit(Low(e.code / 32, k), i) == Bit(0, i) {
      BitOfLow(e.code / 32, k, i);
      BitOfDiv32(e.code, i);
      BitOfZero(i);
      assert !CodeBit(e.code, 15 - (i + 5));
    }
    LowBound(e.code / 32, k);
    SameBits(Low(e.code / 32, k), 0, k);
  }

  /** The encode table and the decode table of src/huffmantable_q3.h agree. */
  lemma TablesAgree()
    ensures Agree(Tables())
  {
    hide Enc, RunAt, Size, Expand, StartsWith, Ends, Place;
    var t := Tables();
    ExpandedLength(257);
    forall s: byte
      ensures 1 <= t.enc[s].len <= WINDOW && t.enc[s].code < 65536 && Ends(t.enc[s].code, t.enc[s].len)
    {
      AllPlaced(s);
      AllAdjacent(Place(s));
      StartBelow(Place(s));
      CodeEnds(s);
    }
    forall s: byte, index: nat | index < 2048 && StartsWith(index, t.enc[s])
      ensures t.dec[index] == DecEntry(s, t.enc[s].len)
    {
      AllPlaced(s);
      AllAdjacent(Place(s));
      StartBelow(Place(s));
      StartsWithIsNear(t.enc[s], index);
      SizeIsPower(t.enc[s].len);
      RunEntries(257, Place(s), index);
    }
  }

  // ---- Every run but one belongs to a symbol ----

  /** The runs of the first `n` symbols. */
  function Runs(n: nat): set<int>
    requires n <= 256
  {
    if n == 0 then {} else Runs(n - 1) + {Place(n - 1)}
  }

  lemma {:induction false} RunsOfSymbols(n: nat)
    requires n <= 256
    ensures |Runs(n)| == n
    ensures forall k | k in Runs(n) :: 0 <= k < 257 && k != 1
    ensures forall k | k in Runs(n) :: 0 <= RunAt(k).value < n && RunAt(k).len == Enc(RunAt(k).value).len
    decreases n
  {
    hide RunAt, Place, Enc;
    if n > 0 {
      RunsOfSymbols(n - 1);
      AllPlaced(n - 1);
      EscapeRun();
    }
  }

  /** The second run answers an escape that the 8-bit code reads as symbol 0. */
  lemma EscapeRun()
    ensures RunAt(1).value == 256 && RunAt(1).len == 11
  {
  }

  function Others(n: nat): set<int> {
    if n == 0 then {} else if n == 2 then Others(1) else Others(n - 1) + {n - 1}
  }

  lemma {:induction false} CountOthers(n: nat)
    ensures |Others(n)| == if n >= 2 then n - 1 else n
    ensures forall k :: k in Others(n) <==> 0 <= k < n && k != 1
    decreases n
  {
    if n == 2 {
      CountOthers(1);
    } else if n > 0 {
      CountOthers(n - 1);
    }
  }

  /** Different symbols have different runs, so there is a symbol for each of the others. */
  lemma RunsAreOthers(n: nat, h: nat)
    requires n == 256 && h == 257
    ensures Runs(n) == Others(h)
  {
    hide RunAt, Place, Enc, Runs, Others;
    RunsOfSymbols(n);
    CountOthers(h);
    var (a, b) := (Runs(n), Others(h));
    forall k | k in a ensures k in b {
      assert k in Runs(n) && k != 1;
    }
    assert a <= b;
    assert b == a + (b - a) && |b| == |a| + |b - a|;
  }

  lemma RunIsCovered(k: nat, n: nat, h: nat)
    requires k < 257 && n == 256 && h == 257
    ensures RunAt(k).len >= Enc(RunAt(k).value % 256).len
  {
    hide RunAt, Place, Enc, Runs, Others;
    if k == 1 {
      EscapeRun();
      AllPlaced(0);
      AllAdjacent(Place(0));
    } else {
      RunsAreOthers(n, h);
      CountOthers(h);
      RunsOfSymbols(n);
      assert k in Runs(n);
    }
  }

  lemma {:induction false} EntryIsCovered(k: nat, index: nat)
    requires k <= 257 && index < |Expand(k)|
    ensures var d := Expand(k)[index]; d.len >= Enc(d.value).len
    decreases k
  {
    hide RunAt, Place, Enc, Size;
    if k > 0 {
      AllAdjacent(k - 1);
      if index < |Expand(k - 1)| {
        EntryIsCovered(k - 1, index);
      } else {
        RunIsCovered(k - 1, 256, 257);
      }
    }
  }

  lemma TablesCover()
    ensures Shape(Tables()) && Covers(Tables())
  {
    hide Enc, Expand, Ends, StartsWith;
    TablesAgree();
    ExpandedLength(257);
    forall index: nat | index < 2048 ensures Tables().dec[index].len >= Tables().enc[Tables().dec[index].value].len {
      EntryIsCovered(257, index);
    }
  }
}
