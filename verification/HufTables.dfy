/** The two code trees of src/convert/hufman.h, node by node, and the trails that show them well-formed. */
module HufTables {
  import opened HufTree

  const NODES := 212

  const WhiteHUFS: Tree := seq(NODES, (i: nat) requires i < NODES => WhiteNode(i))
  const BlackHUFS: Tree := seq(NODES, (i: nat) requires i < NODES => BlackNode(i))
  const HufTrees := Trees(WhiteHUFS, BlackHUFS)

  function WhiteNode(i: nat): INode {
    if i < 16 then WhiteNode0(i)
    else if i < 32 then WhiteNode16(i)
    else if i < 48 then WhiteNode32(i)
    else if i < 64 then WhiteNode48(i)
    else if i < 80 then WhiteNode64(i)
    else if i < 96 then WhiteNode80(i)
    else if i < 112 then WhiteNode96(i)
    else if i < 128 then WhiteNode112(i)
    else if i < 144 then WhiteNode128(i)
    else if i < 160 then WhiteNode144(i)
    else if i < 176 then WhiteNode160(i)
    else if i < 192 then WhiteNode176(i)
    else if i < 208 then WhiteNode192(i)
    else WhiteNode208(i)
  }

  function WhiteNode0(i: nat): INode {
    match i
    case 0 => INode(-1, 1, 5) case 1 => INode(-1, 21, 2) case 2 => INode(-1, 25, 3) case 3 => INode(-1, 50, 4)
    case 4 => INode(2, 0, 0) case 5 => INode(-1, 6, 11) case 6 => INode(-1, 7, 9) case 7 => INode(-1, 8, 17)
    case 8 => INode(3, 0, 0) case 9 => INode(-1, 19, 10) case 10 => INode(4, 0, 0) case 11 => INode(-1, 12, 14)
    case 12 => INode(-1, 13, 28) case 13 => INode(5, 0, 0) case 14 => INode(-1, 15, 16) case _ => INode(6, 0, 0)
  }

  function WhiteNode16(i: nat): INode {
    match i
    case 16 => INode(7, 0, 0) case 17 => INode(-1, 30, 18) case 18 => INode(8, 0, 0) case 19 => INode(-1, 20, 44)
    case 20 => INode(9, 0, 0) case 21 => INode(-1, 31, 22) case 22 => INode(-1, 35, 23) case 23 => INode(-1, 78, 24)
    case 24 => INode(10, 0, 0) case 25 => INode(-1, 26, 47) case 26 => INode(-1, 27, 53) case 27 => INode(11, 0, 0)
    case 28 => INode(-1, 41, 29) case 29 => INode(64, 0, 0) case 30 => INode(128, 0, 0) case _ => INode(-1, 38, 32)
  }

  function WhiteNode32(i: nat): INode {
    match i
    case 32 => INode(-1, 58, 33) case 33 => INode(-1, 56, 34) case 34 => INode(1, 0, 0) case 35 => INode(-1, 36, 61)
    case 36 => INode(-1, 37, 74) case 37 => INode(12, 0, 0) case 38 => INode(-1, 64, 39) case 39 => INode(-1, 67, 40)
    case 40 => INode(13, 0, 0) case 41 => INode(-1, 42, 43) case 42 => INode(14, 0, 0) case 43 => INode(15, 0, 0)
    case 44 => INode(-1, 45, 46) case 45 => INode(16, 0, 0) case 46 => INode(17, 0, 0) case _ => INode(-1, 69, 48)
  }

  function WhiteNode48(i: nat): INode {
    match i
    case 48 => INode(-1, 129, 49) case 49 => INode(192, 0, 0) case 50 => INode(-1, 51, 81) case 51 => INode(-1, 52, 146)
    case 52 => INode(1664, 0, 0) case 53 => INode(-1, 76, 54) case 54 => INode(-1, 175, 55) case 55 => INode(18, 0, 0)
    case 56 => INode(-1, 57, 91) case 57 => INode(19, 0, 0) case 58 => INode(-1, 59, 97) case 59 => INode(-1, 60, 94)
    case 60 => INode(20, 0, 0) case 61 => INode(-1, 104, 62) case 62 => INode(-1, 111, 63) case _ => INode(21, 0, 0)
  }

  function WhiteNode64(i: nat): INode {
    match i
    case 64 => INode(-1, 87, 65) case 65 => INode(-1, 114, 66) case 66 => INode(22, 0, 0) case 67 => INode(-1, 68, 117)
    case 68 => INode(23, 0, 0) case 69 => INode(-1, 70, 72) case 70 => INode(-1, 71, 120) case 71 => INode(24, 0, 0)
    case 72 => INode(-1, 123, 73) case 73 => INode(25, 0, 0) case 74 => INode(-1, 126, 75) case 75 => INode(26, 0, 0)
    case 76 => INode(-1, 77, 136) case 77 => INode(27, 0, 0) case 78 => INode(-1, 79, 84) case _ => INode(-1, 80, 139)
  }

  function WhiteNode80(i: nat): INode {
    match i
    case 80 => INode(28, 0, 0) case 81 => INode(-1, 150, 82) case 82 => INode(-1, 168, 83) case 83 => INode(256, 0, 0)
    case 84 => INode(-1, 85, 143) case 85 => INode(-1, 142, 86) case 86 => INode(0, 0, 0) case 87 => INode(-1, 182, 88)
    case 88 => INode(-1, 89, 90) case 89 => INode(29, 0, 0) case 90 => INode(30, 0, 0) case 91 => INode(-1, 92, 93)
    case 92 => INode(31, 0, 0) case 93 => INode(32, 0, 0) case 94 => INode(-1, 95, 96) case _ => INode(33, 0, 0)
  }

  function WhiteNode96(i: nat): INode {
    match i
    case 96 => INode(34, 0, 0) case 97 => INode(-1, 98, 101) case 98 => INode(-1, 99, 100)
    case 99 => INode(35, 0, 0) case 100 => INode(36, 0, 0) case 101 => INode(-1, 102, 103)
    case 102 => INode(37, 0, 0) case 103 => INode(38, 0, 0) case 104 => INode(-1, 105, 108)
    case 105 => INode(-1, 106, 107) case 106 => INode(39, 0, 0) case 107 => INode(40, 0, 0)
    case 108 => INode(-1, 109, 110) case 109 => INode(41, 0, 0) case 110 => INode(42, 0, 0)
    case _ => INode(-1, 112, 113)
  }

  function WhiteNode112(i: nat): INode {
    match i
    case 112 => INode(43, 0, 0) case 113 => INode(44, 0, 0) case 114 => INode(-1, 115, 116)
    case 115 => INode(45, 0, 0) case 116 => INode(46, 0, 0) case 117 => INode(-1, 118, 119)
    case 118 => INode(47, 0, 0) case 119 => INode(48, 0, 0) case 120 => INode(-1, 121, 122)
    case 121 => INode(49, 0, 0) case 122 => INode(50, 0, 0) case 123 => INode(-1, 124, 125)
    case 124 => INode(51, 0, 0) case 125 => INode(52, 0, 0) case 126 => INode(-1, 127, 128)
    case _ => INode(53, 0, 0)
  }

  function WhiteNode128(i: nat): INode {
    match i
    case 128 => INode(54, 0, 0) case 129 => INode(-1, 130, 133) case 130 => INode(-1, 131, 132)
    case 131 => INode(55, 0, 0) case 132 => INode(56, 0, 0) case 133 => INode(-1, 134, 135)
    case 134 => INode(57, 0, 0) case 135 => INode(58, 0, 0) case 136 => INode(-1, 137, 138)
    case 137 => INode(59, 0, 0) case 138 => INode(60, 0, 0) case 139 => INode(-1, 140, 141)
    case 140 => INode(61, 0, 0) case 141 => INode(62, 0, 0) case 142 => INode(63, 0, 0)
    case _ => INode(-1, 144, 145)
  }

  function WhiteNode144(i: nat): INode {
    match i
    case 144 => INode(320, 0, 0) case 145 => INode(384, 0, 0) case 146 => INode(-1, 147, 153)
    case 147 => INode(-1, 148, 149) case 148 => INode(448, 0, 0) case 149 => INode(512, 0, 0)
    case 150 => INode(-1, 151, 161) case 151 => INode(-1, 152, 158) case 152 => INode(576, 0, 0)
    case 153 => INode(-1, 155, 154) case 154 => INode(640, 0, 0) case 155 => INode(-1, 156, 157)
    case 156 => INode(704, 0, 0) case 157 => INode(768, 0, 0) case 158 => INode(-1, 159, 160)
    case _ => INode(832, 0, 0)
  }

  function WhiteNode160(i: nat): INode {
    match i
    case 160 => INode(896, 0, 0) case 161 => INode(-1, 162, 165) case 162 => INode(-1, 163, 164)
    case 163 => INode(960, 0, 0) case 164 => INode(1024, 0, 0) case 165 => INode(-1, 166, 167)
    case 166 => INode(1088, 0, 0) case 167 => INode(1152, 0, 0) case 168 => INode(-1, 169, 172)
    case 169 => INode(-1, 170, 171) case 170 => INode(1216, 0, 0) case 171 => INode(1280, 0, 0)
    case 172 => INode(-1, 173, 174) case 173 => INode(1344, 0, 0) case 174 => INode(1408, 0, 0)
    case _ => INode(-1, 176, 179)
  }

  function WhiteNode176(i: nat): INode {
    match i
    case 176 => INode(-1, 177, 178) case 177 => INode(1472, 0, 0) case 178 => INode(1536, 0, 0)
    case 179 => INode(-1, 180, 181) case 180 => INode(1600, 0, 0) case 181 => INode(1728, 0, 0)
    case 182 => INode(-1, 191, 183) case 183 => INode(-1, 184, 187) case 184 => INode(-1, 185, 198)
    case 185 => INode(-1, 186, 195) case 186 => INode(1792, 0, 0) case 187 => INode(-1, 188, 205)
    case 188 => INode(-1, 189, 190) case 189 => INode(1856, 0, 0) case 190 => INode(1920, 0, 0)
    case _ => INode(-1, 192, 0)
  }

  function WhiteNode192(i: nat): INode {
    match i
    case 192 => INode(-1, 193, 0) case 193 => INode(-1, 194, 0) case 194 => INode(9999, 0, 0)
    case 195 => INode(-1, 196, 197) case 196 => INode(1984, 0, 0) case 197 => INode(2048, 0, 0)
    case 198 => INode(-1, 199, 202) case 199 => INode(-1, 200, 201) case 200 => INode(2112, 0, 0)
    case 201 => INode(2176, 0, 0) case 202 => INode(-1, 203, 204) case 203 => INode(2240, 0, 0)
    case 204 => INode(2304, 0, 0) case 205 => INode(-1, 206, 209) case 206 => INode(-1, 207, 208)
    case _ => INode(2368, 0, 0)
  }

  function WhiteNode208(i: nat): INode {
    match i
    case 208 => INode(2432, 0, 0) case 209 => INode(-1, 210, 211) case 210 => INode(2496, 0, 0)
    case _ => INode(2560, 0, 0)
  }

  function WhiteTrail(i: nat): Trail {
    if i < 16 then WhiteTrail0(i)
    else if i < 32 then WhiteTrail16(i)
    else if i < 48 then WhiteTrail32(i)
    else if i < 64 then WhiteTrail48(i)
    else if i < 80 then WhiteTrail64(i)
    else if i < 96 then WhiteTrail80(i)
    else if i < 112 then WhiteTrail96(i)
    else if i < 128 then WhiteTrail112(i)
    else if i < 144 then WhiteTrail128(i)
    else if i < 160 then WhiteTrail144(i)
    else if i < 176 then WhiteTrail160(i)
    else if i < 192 then WhiteTrail176(i)
    else if i < 208 then WhiteTrail192(i)
    else WhiteTrail208(i)
  }

  function WhiteTrail0(i: nat): Trail {
    match i
    case 0 => OnlyZeros(0) case 1 => OnlyZeros(1) case 6 => AfterOne(1) case 7 => AfterOne(2) case 8 => AfterOne(3)
    case 12 => AfterOne(1) case 13 => AfterOne(2) case 15 => AfterOne(1) case _ => AfterOne(0)
  }

  function WhiteTrail16(i: nat): Trail {
    match i
    case 19 => AfterOne(1) case 20 => AfterOne(2) case 21 => OnlyZeros(2) case 25 => AfterOne(1) case 26 => AfterOne(2)
    case 27 => AfterOne(3) case 30 => AfterOne(1) case 31 => OnlyZeros(3) case _ => AfterOne(0)
  }

  function WhiteTrail32(i: nat): Trail {
    match i
    case 35 => AfterOne(1) case 36 => AfterOne(2) case 37 => AfterOne(3) case 38 => OnlyZeros(4) case 41 => AfterOne(1)
    case 42 => AfterOne(2) case 45 => AfterOne(1) case _ => AfterOne(0)
  }

  function WhiteTrail48(i: nat): Trail {
    match i
    case 50 => AfterOne(1) case 51 => AfterOne(2) case 52 => AfterOne(3) case 56 => AfterOne(1) case 57 => AfterOne(2)
    case 58 => AfterOne(1) case 59 => AfterOne(2) case 60 => AfterOne(3) case _ => AfterOne(0)
  }

  function WhiteTrail64(i: nat): Trail {
    match i
    case 64 => OnlyZeros(5) case 67 => AfterOne(1) case 68 => AfterOne(2) case 69 => AfterOne(1) case 70 => AfterOne(2)
    case 71 => AfterOne(3) case 76 => AfterOne(1) case 77 => AfterOne(2) case 78 => AfterOne(1) case 79 => AfterOne(2)
    case _ => AfterOne(0)
  }

  function WhiteTrail80(i: nat): Trail {
    match i
    case 80 => AfterOne(3) case 85 => AfterOne(1) case 87 => OnlyZeros(6) case 89 => AfterOne(1) case 92 => AfterOne(1)
    case 95 => AfterOne(1) case _ => AfterOne(0)
  }

  function WhiteTrail96(i: nat): Trail {
    match i
    case 98 => AfterOne(1) case 99 => AfterOne(2) case 102 => AfterOne(1) case 104 => AfterOne(1)
    case 105 => AfterOne(2) case 106 => AfterOne(3) case 109 => AfterOne(1) case 111 => AfterOne(1)
    case _ => AfterOne(0)
  }

  function WhiteTrail112(i: nat): Trail {
    match i
    case 112 => AfterOne(2) case 114 => AfterOne(1) case 115 => AfterOne(2) case 118 => AfterOne(1)
    case 121 => AfterOne(1) case 123 => AfterOne(1) case 124 => AfterOne(2) case 126 => AfterOne(1)
    case 127 => AfterOne(2) case _ => AfterOne(0)
  }

  function WhiteTrail128(i: nat): Trail {
    match i
    case 129 => AfterOne(1) case 130 => AfterOne(2) case 131 => AfterOne(3) case 134 => AfterOne(1)
    case 137 => AfterOne(1) case 140 => AfterOne(1) case 142 => AfterOne(2) case _ => AfterOne(0)
  }

  function WhiteTrail144(i: nat): Trail {
    match i
    case 144 => AfterOne(1) case 147 => AfterOne(1) case 148 => AfterOne(2) case 150 => AfterOne(1)
    case 151 => AfterOne(2) case 152 => AfterOne(3) case 155 => AfterOne(1) case 156 => AfterOne(2)
    case 159 => AfterOne(1) case _ => AfterOne(0)
  }

  function WhiteTrail160(i: nat): Trail {
    match i
    case 162 => AfterOne(1) case 163 => AfterOne(2) case 166 => AfterOne(1) case 168 => AfterOne(1)
    case 169 => AfterOne(2) case 170 => AfterOne(3) case 173 => AfterOne(1) case 175 => AfterOne(1)
    case _ => AfterOne(0)
  }

  function WhiteTrail176(i: nat): Trail {
    match i
    case 176 => AfterOne(2) case 177 => AfterOne(3) case 180 => AfterOne(1) case 182 => OnlyZeros(7)
    case 184 => AfterOne(1) case 185 => AfterOne(2) case 186 => AfterOne(3) case 188 => AfterOne(1)
    case 189 => AfterOne(2) case 191 => OnlyZeros(8) case _ => AfterOne(0)
  }

  function WhiteTrail192(i: nat): Trail {
    match i
    case 192 => OnlyZeros(9) case 193 => OnlyZeros(10) case 194 => OnlyZeros(11) case 196 => AfterOne(1)
    case 199 => AfterOne(1) case 200 => AfterOne(2) case 203 => AfterOne(1) case 206 => AfterOne(1)
    case 207 => AfterOne(2) case _ => AfterOne(0)
  }

  function WhiteTrail208(i: nat): Trail {
    match i
    case 210 => AfterOne(1) case _ => AfterOne(0)
  }

  function BlackNode(i: nat): INode {
    if i < 16 then BlackNode0(i)
    else if i < 32 then BlackNode16(i)
    else if i < 48 then BlackNode32(i)
    else if i < 64 then BlackNode48(i)
    else if i < 80 then BlackNode64(i)
    else if i < 96 then BlackNode80(i)
    else if i < 112 then BlackNode96(i)
    else if i < 128 then BlackNode112(i)
    else if i < 144 then BlackNode128(i)
    else if i < 160 then BlackNode144(i)
    else if i < 176 then BlackNode160(i)
    else if i < 192 then BlackNode176(i)
    else if i < 208 then BlackNode192(i)
    else BlackNode208(i)
  }

  function BlackNode0(i: nat): INode {
    match i
    case 0 => INode(-1, 4, 1) case 1 => INode(-1, 3, 2) case 2 => INode(2, 0, 0) case 3 => INode(3, 0, 0)
    case 4 => INode(-1, 8, 5) case 5 => INode(-1, 7, 6) case 6 => INode(4, 0, 0) case 7 => INode(1, 0, 0)
    case 8 => INode(-1, 12, 9) case 9 => INode(-1, 11, 10) case 10 => INode(5, 0, 0) case 11 => INode(6, 0, 0)
    case 12 => INode(-1, 18, 13) case 13 => INode(-1, 15, 14) case 14 => INode(7, 0, 0) case _ => INode(-1, 17, 16)
  }

  function BlackNode16(i: nat): INode {
    match i
    case 16 => INode(8, 0, 0) case 17 => INode(9, 0, 0) case 18 => INode(-1, 25, 19) case 19 => INode(-1, 20, 23)
    case 20 => INode(-1, 21, 22) case 21 => INode(10, 0, 0) case 22 => INode(11, 0, 0) case 23 => INode(-1, 31, 24)
    case 24 => INode(12, 0, 0) case 25 => INode(-1, 43, 26) case 26 => INode(-1, 27, 29) case 27 => INode(-1, 28, 37)
    case 28 => INode(13, 0, 0) case 29 => INode(-1, 40, 30) case 30 => INode(14, 0, 0) case _ => INode(-1, 32, 34)
  }

  function BlackNode32(i: nat): INode {
    match i
    case 32 => INode(-1, 33, 51) case 33 => INode(15, 0, 0) case 34 => INode(-1, 54, 35) case 35 => INode(-1, 57, 36)
    case 36 => INode(0, 0, 0) case 37 => INode(-1, 62, 38) case 38 => INode(-1, 142, 39) case 39 => INode(16, 0, 0)
    case 40 => INode(-1, 41, 59) case 41 => INode(-1, 42, 121) case 42 => INode(17, 0, 0) case 43 => INode(-1, 71, 44)
    case 44 => INode(-1, 45, 48) case 45 => INode(-1, 46, 65) case 46 => INode(-1, 47, 128) case _ => INode(18, 0, 0)
  }

  function BlackNode48(i: nat): INode {
    match i
    case 48 => INode(-1, 68, 49) case 49 => INode(-1, 134, 50) case 50 => INode(64, 0, 0) case 51 => INode(-1, 84, 52)
    case 52 => INode(-1, 88, 53) case 53 => INode(19, 0, 0) case 54 => INode(-1, 55, 101) case 55 => INode(-1, 56, 98)
    case 56 => INode(20, 0, 0) case 57 => INode(-1, 58, 111) case 58 => INode(21, 0, 0) case 59 => INode(-1, 91, 60)
    case 60 => INode(-1, 108, 61) case 61 => INode(22, 0, 0) case 62 => INode(-1, 63, 114) case _ => INode(-1, 64, 125)
  }

  function BlackNode64(i: nat): INode {
    match i
    case 64 => INode(23, 0, 0) case 65 => INode(-1, 139, 66) case 66 => INode(-1, 148, 67)
    case 67 => INode(24, 0, 0) case 68 => INode(-1, 69, 131) case 69 => INode(-1, 70, 159)
    case 70 => INode(25, 0, 0) case 71 => INode(-1, 80, 72) case 72 => INode(-1, 73, 76)
    case 73 => INode(-1, 74, 167) case 74 => INode(-1, 75, 164) case 75 => INode(1792, 0, 0)
    case 76 => INode(-1, 77, 174) case 77 => INode(-1, 78, 79) case 78 => INode(1856, 0, 0)
    case _ => INode(1920, 0, 0)
  }

  function BlackNode80(i: nat): INode {
    match i
    case 80 => INode(-1, 81, 0) case 81 => INode(-1, 82, 0) case 82 => INode(-1, 83, 0) case 83 => INode(9999, 0, 0)
    case 84 => INode(-1, 155, 85) case 85 => INode(-1, 86, 87) case 86 => INode(26, 0, 0) case 87 => INode(27, 0, 0)
    case 88 => INode(-1, 89, 90) case 89 => INode(28, 0, 0) case 90 => INode(29, 0, 0) case 91 => INode(-1, 92, 95)
    case 92 => INode(-1, 93, 94) case 93 => INode(30, 0, 0) case 94 => INode(31, 0, 0) case _ => INode(-1, 96, 97)
  }

  function BlackNode96(i: nat): INode {
    match i
    case 96 => INode(32, 0, 0) case 97 => INode(33, 0, 0) case 98 => INode(-1, 99, 100) case 99 => INode(34, 0, 0)
    case 100 => INode(35, 0, 0) case 101 => INode(-1, 102, 105) case 102 => INode(-1, 103, 104)
    case 103 => INode(36, 0, 0) case 104 => INode(37, 0, 0) case 105 => INode(-1, 106, 107)
    case 106 => INode(38, 0, 0) case 107 => INode(39, 0, 0) case 108 => INode(-1, 109, 110)
    case 109 => INode(40, 0, 0) case 110 => INode(41, 0, 0) case _ => INode(-1, 112, 113)
  }

  function BlackNode112(i: nat): INode {
    match i
    case 112 => INode(42, 0, 0) case 113 => INode(43, 0, 0) case 114 => INode(-1, 115, 118)
    case 115 => INode(-1, 116, 117) case 116 => INode(44, 0, 0) case 117 => INode(45, 0, 0)
    case 118 => INode(-1, 119, 120) case 119 => INode(46, 0, 0) case 120 => INode(47, 0, 0)
    case 121 => INode(-1, 122, 152) case 122 => INode(-1, 123, 124) case 123 => INode(48, 0, 0)
    case 124 => INode(49, 0, 0) case 125 => INode(-1, 126, 127) case 126 => INode(50, 0, 0)
    case _ => INode(51, 0, 0)
  }

  function BlackNode128(i: nat): INode {
    match i
    case 128 => INode(-1, 129, 137) case 129 => INode(-1, 130, 184) case 130 => INode(52, 0, 0)
    case 131 => INode(-1, 161, 132) case 132 => INode(-1, 181, 133) case 133 => INode(53, 0, 0)
    case 134 => INode(-1, 135, 193) case 135 => INode(-1, 136, 190) case 136 => INode(54, 0, 0)
    case 137 => INode(-1, 187, 138) case 138 => INode(55, 0, 0) case 139 => INode(-1, 140, 146)
    case 140 => INode(-1, 141, 200) case 141 => INode(56, 0, 0) case 142 => INode(-1, 143, 150)
    case _ => INode(-1, 144, 145)
  }

  function BlackNode144(i: nat): INode {
    match i
    case 144 => INode(57, 0, 0) case 145 => INode(58, 0, 0) case 146 => INode(-1, 203, 147)
    case 147 => INode(59, 0, 0) case 148 => INode(-1, 149, 206) case 149 => INode(60, 0, 0)
    case 150 => INode(-1, 151, 158) case 151 => INode(61, 0, 0) case 152 => INode(-1, 153, 154)
    case 153 => INode(62, 0, 0) case 154 => INode(63, 0, 0) case 155 => INode(-1, 156, 157)
    case 156 => INode(128, 0, 0) case 157 => INode(192, 0, 0) case 158 => INode(256, 0, 0)
    case _ => INode(-1, 209, 160)
  }

  function BlackNode160(i: nat): INode {
    match i
    case 160 => INode(320, 0, 0) case 161 => INode(-1, 162, 163) case 162 => INode(384, 0, 0)
    case 163 => INode(448, 0, 0) case 164 => INode(-1, 165, 166) case 165 => INode(1984, 0, 0)
    case 166 => INode(2048, 0, 0) case 167 => INode(-1, 168, 171) case 168 => INode(-1, 169, 170)
    case 169 => INode(2112, 0, 0) case 170 => INode(2176, 0, 0) case 171 => INode(-1, 172, 173)
    case 172 => INode(2240, 0, 0) case 173 => INode(2304, 0, 0) case 174 => INode(-1, 175, 178)
    case _ => INode(-1, 176, 177)
  }

  function BlackNode176(i: nat): INode {
    match i
    case 176 => INode(2368, 0, 0) case 177 => INode(2432, 0, 0) case 178 => INode(-1, 179, 180)
    case 179 => INode(2496, 0, 0) case 180 => INode(2560, 0, 0) case 181 => INode(-1, 182, 183)
    case 182 => INode(512, 0, 0) case 183 => INode(576, 0, 0) case 184 => INode(-1, 185, 186)
    case 185 => INode(640, 0, 0) case 186 => INode(704, 0, 0) case 187 => INode(-1, 188, 189)
    case 188 => INode(768, 0, 0) case 189 => INode(832, 0, 0) case 190 => INode(-1, 191, 192)
    case _ => INode(896, 0, 0)
  }

  function BlackNode192(i: nat): INode {
    match i
    case 192 => INode(960, 0, 0) case 193 => INode(-1, 194, 197) case 194 => INode(-1, 195, 196)
    case 195 => INode(1024, 0, 0) case 196 => INode(1088, 0, 0) case 197 => INode(-1, 198, 199)
    case 198 => INode(1152, 0, 0) case 199 => INode(1216, 0, 0) case 200 => INode(-1, 201, 202)
    case 201 => INode(1280, 0, 0) case 202 => INode(1344, 0, 0) case 203 => INode(-1, 204, 205)
    case 204 => INode(1408, 0, 0) case 205 => INode(1472, 0, 0) case 206 => INode(-1, 207, 208)
    case _ => INode(1536, 0, 0)
  }

  function BlackNode208(i: nat): INode {
    match i
    case 208 => INode(1600, 0, 0) case 209 => INode(-1, 210, 211) case 210 => INode(1664, 0, 0)
    case _ => INode(1728, 0, 0)
  }

  function BlackTrail(i: nat): Trail {
    if i < 16 then BlackTrail0(i)
    else if i < 32 then BlackTrail16(i)
    else if i < 48 then BlackTrail32(i)
    else if i < 64 then BlackTrail48(i)
    else if i < 80 then BlackTrail64(i)
    else if i < 96 then BlackTrail80(i)
    else if i < 112 then BlackTrail96(i)
    else if i < 128 then BlackTrail112(i)
    else if i < 144 then BlackTrail128(i)
    else if i < 160 then BlackTrail144(i)
    else if i < 176 then BlackTrail160(i)
    else if i < 192 then BlackTrail176(i)
    else if i < 208 then BlackTrail192(i)
    else BlackTrail208(i)
  }

  function BlackTrail0(i: nat): Trail {
    match i
    case 0 => OnlyZeros(0) case 3 => AfterOne(1) case 4 => OnlyZeros(1) case 7 => AfterOne(1) case 8 => OnlyZeros(2)
    case 11 => AfterOne(1) case 12 => OnlyZeros(3) case 15 => AfterOne(1) case _ => AfterOne(0)
  }

  function BlackTrail16(i: nat): Trail {
    match i
    case 17 => AfterOne(2) case 18 => OnlyZeros(4) case 20 => AfterOne(1) case 21 => AfterOne(2) case 25 => OnlyZeros(5)
    case 27 => AfterOne(1) case 28 => AfterOne(2) case 31 => AfterOne(1) case _ => AfterOne(0)
  }

  function BlackTrail32(i: nat): Trail {
    match i
    case 32 => AfterOne(2) case 33 => AfterOne(3) case 40 => AfterOne(1) case 41 => AfterOne(2) case 42 => AfterOne(3)
    case 43 => OnlyZeros(6) case 45 => AfterOne(1) case 46 => AfterOne(2) case 47 => AfterOne(3) case _ => AfterOne(0)
  }

  function BlackTrail48(i: nat): Trail {
    match i
    case 54 => AfterOne(1) case 55 => AfterOne(2) case 56 => AfterOne(3) case 57 => AfterOne(1) case 58 => AfterOne(2)
    case 62 => AfterOne(1) case 63 => AfterOne(2) case _ => AfterOne(0)
  }

  function BlackTrail64(i: nat): Trail {
    match i
    case 64 => AfterOne(3) case 68 => AfterOne(1) case 69 => AfterOne(2) case 70 => AfterOne(3) case 71 => OnlyZeros(7)
    case 73 => AfterOne(1) case 74 => AfterOne(2) case 75 => AfterOne(3) case 77 => AfterOne(1) case 78 => AfterOne(2)
    case _ => AfterOne(0)
  }

  function BlackTrail80(i: nat): Trail {
    match i
    case 80 => OnlyZeros(8) case 81 => OnlyZeros(9) case 82 => OnlyZeros(10) case 83 => OnlyZeros(11)
    case 84 => AfterOne(1) case 86 => AfterOne(1) case 88 => AfterOne(1) case 89 => AfterOne(2)
    case 91 => AfterOne(1) case 92 => AfterOne(2) case 93 => AfterOne(3) case _ => AfterOne(0)
  }

  function BlackTrail96(i: nat): Trail {
    match i
    case 96 => AfterOne(1) case 99 => AfterOne(1) case 102 => AfterOne(1) case 103 => AfterOne(2)
    case 106 => AfterOne(1) case 108 => AfterOne(1) case 109 => AfterOne(2) case _ => AfterOne(0)
  }

  function BlackTrail112(i: nat): Trail {
    match i
    case 112 => AfterOne(1) case 115 => AfterOne(1) case 116 => AfterOne(2) case 119 => AfterOne(1)
    case 122 => AfterOne(1) case 123 => AfterOne(2) case 126 => AfterOne(1) case _ => AfterOne(0)
  }

  function BlackTrail128(i: nat): Trail {
    match i
    case 129 => AfterOne(1) case 130 => AfterOne(2) case 134 => AfterOne(1) case 135 => AfterOne(2)
    case 136 => AfterOne(3) case 139 => AfterOne(1) case 140 => AfterOne(2) case 141 => AfterOne(3)
    case 142 => AfterOne(1) case 143 => AfterOne(2) case _ => AfterOne(0)
  }

  function BlackTrail144(i: nat): Trail {
    match i
    case 144 => AfterOne(3) case 148 => AfterOne(1) case 149 => AfterOne(2) case 151 => AfterOne(1)
    case 153 => AfterOne(1) case 155 => AfterOne(2) case 156 => AfterOne(3) case _ => AfterOne(0)
  }

  function BlackTrail160(i: nat): Trail {
    match i
    case 161 => AfterOne(1) case 162 => AfterOne(2) case 165 => AfterOne(1) case 168 => AfterOne(1)
    case 169 => AfterOne(2) case 172 => AfterOne(1) case 175 => AfterOne(1) case _ => AfterOne(0)
  }

  function BlackTrail176(i: nat): Trail {
    match i
    case 176 => AfterOne(2) case 179 => AfterOne(1) case 181 => AfterOne(1) case 182 => AfterOne(2)
    case 185 => AfterOne(1) case 187 => AfterOne(1) case 188 => AfterOne(2) case 191 => AfterOne(1)
    case _ => AfterOne(0)
  }

  function BlackTrail192(i: nat): Trail {
    match i
    case 194 => AfterOne(1) case 195 => AfterOne(2) case 198 => AfterOne(1) case 201 => AfterOne(1)
    case 203 => AfterOne(1) case 204 => AfterOne(2) case 207 => AfterOne(1) case _ => AfterOne(0)
  }

  function BlackTrail208(i: nat): Trail {
    match i
    case 209 => AfterOne(1) case 210 => AfterOne(2) case _ => AfterOne(0)
  }

  const WhiteTrails: seq<Trail> := seq(NODES, (i: nat) requires i < NODES => WhiteTrail(i))

  lemma WhiteNodes0(i: nat)
    requires 0 <= i < 32
    ensures NodeOk(WhiteHUFS, WhiteTrails, i)
  {}

  lemma WhiteNodes32(i: nat)
    requires 32 <= i < 64
    ensures NodeOk(WhiteHUFS, WhiteTrails, i)
  {}

  lemma WhiteNodes64(i: nat)
    requires 64 <= i < 96
    ensures NodeOk(WhiteHUFS, WhiteTrails, i)
  {}

  lemma WhiteNodes96(i: nat)
    requires 96 <= i < 128
    ensures NodeOk(WhiteHUFS, WhiteTrails, i)
  {}

  lemma WhiteNodes128(i: nat)
    requires 128 <= i < 160
    ensures NodeOk(WhiteHUFS, WhiteTrails, i)
  {}

  lemma WhiteNodes160(i: nat)
    requires 160 <= i < 192
    ensures NodeOk(WhiteHUFS, WhiteTrails, i)
  {}

  lemma WhiteNodes192(i: nat)
    requires 192 <= i < 212
    ensures NodeOk(WhiteHUFS, WhiteTrails, i)
  {}

  const BlackTrails: seq<Trail> := seq(NODES, (i: nat) requires i < NODES => BlackTrail(i))

  lemma BlackNodes0(i: nat)
    requires 0 <= i < 32
    ensures NodeOk(BlackHUFS, BlackTrails, i)
  {}

  lemma BlackNodes32(i: nat)
    requires 32 <= i < 64
    ensures NodeOk(BlackHUFS, BlackTrails, i)
  {}

  lemma BlackNodes64(i: nat)
    requires 64 <= i < 96
    ensures NodeOk(BlackHUFS, BlackTrails, i)
  {}

  lemma BlackNodes96(i: nat)
    requires 96 <= i < 128
    ensures NodeOk(BlackHUFS, BlackTrails, i)
  {}

  lemma BlackNodes128(i: nat)
    requires 128 <= i < 160
    ensures NodeOk(BlackHUFS, BlackTrails, i)
  {}

  lemma BlackNodes160(i: nat)
    requires 160 <= i < 192
    ensures NodeOk(BlackHUFS, BlackTrails, i)
  {}

  lemma BlackNodes192(i: nat)
    requires 192 <= i < 212
    ensures NodeOk(BlackHUFS, BlackTrails, i)
  {}

  lemma TablesWellFormed()
    ensures BothWellFormed(HufTrees)
  {
    forall i | 0 <= i < NODES ensures NodeOk(WhiteHUFS, WhiteTrails, i) {
      if i < 32 { WhiteNodes0(i); }
      else if i < 64 { WhiteNodes32(i); }
      else if i < 96 { WhiteNodes64(i); }
      else if i < 128 { WhiteNodes96(i); }
      else if i < 160 { WhiteNodes128(i); }
      else if i < 192 { WhiteNodes160(i); }
      else { WhiteNodes192(i); }
    }
    assert Labels(WhiteHUFS, WhiteTrails);
    forall i | 0 <= i < NODES ensures NodeOk(BlackHUFS, BlackTrails, i) {
      if i < 32 { BlackNodes0(i); }
      else if i < 64 { BlackNodes32(i); }
      else if i < 96 { BlackNodes64(i); }
      else if i < 128 { BlackNodes96(i); }
      else if i < 160 { BlackNodes128(i); }
      else if i < 192 { BlackNodes160(i); }
      else { BlackNodes192(i); }
    }
    assert Labels(BlackHUFS, BlackTrails);
  }
}
